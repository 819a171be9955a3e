# Oraja training: models of its protocols, and proofs about them

A Dafny model of the parts of the repository whose correctness depends on more than one body: the job
ledger, the encrypted upload pipeline with its transport to the container, the upload sessions with
their shared objects, the collectors that rebuild history from snapshots, and the rotation of OAuth
refresh tokens.  Two self-contained algorithms, the canonical JSON printer and the Gauss-Jordan solver,
stand beside them.

`dafny verify dfyconfig.toml` checks everything.

## What is modelled

**The job ledger** (`JobRuns`, `Ledger`, `LedgerSafety`, `LedgerTheorems`, `LedgerCalls`,
`LedgerExamples`, `JobLives`, `LedgerLives`).  Every awaited
D1 statement or batch is one step; a state also holds what each call in flight has read.  A run of the
ledger is any sequence of steps of any calls, so calls may interleave, repeat and stop anywhere.  `JobRuns`
is one job's row, outcomes and deliveries; `Ledger` adds revisions, pointers, artifacts, and the
profile objects' plays.  `LedgerCalls.D1JobLedger` runs whole calls and says what one call does.  There
calls in flight may go on, be resent and be repeated for ever, which is right for what must never happen.
`JobLives` and `LedgerLives` add what is alive, namely the dispatch row, each message and its delivery,
consumers, workflow instances and cancels, every one of which can stop; they say what can still happen.

**The byte pipeline** (`Bytes`, `Frames`, `EnvelopeStreams`, `Sha256Spec`, `Sha256Facts`,
`Sha256Stream`, `TransportHeaders`, `Framing`, `TransportStreams`).  The writer, the readers, the hasher and the bounded
body are classes that loop over buffers as the source does; each is proved against a function on whole
byte strings.  The cipher is any pair of functions with two laws: a ciphertext is 16 bytes longer than
its plaintext, and decryption undoes encryption under the same key, nonce and associated data.

**Upload sessions** (`UploadTables`, `UploadService`, `UploadReading`, `UploadExamples`).  Every await of a call may fail,
with or without its effect, or be the last thing that ever happens; the ghost field `faults` counts the
failures, so a contract says both what holds after any failure and what a call achieves when none occurs.

**Collectors** (`Collector`, `Poller`, `Daily`, `DailyImport`, `Replays`).  The source databases keep one
row per chart; the models rebuild plays, losses, generations and a change journal from them.

**OAuth** (`OAuthGrant`, `OAuthCalls`).  One grant with its code and tokens, each D1 call one step; racing
calls present tokens that were handed out.

**Extras** (`CanonicalJson`, `JsonParser`, `JsonTheorems`, `LinearSolve`).

## What the proofs found

- A publish of an undecided run is refused exactly when its revision is the newest of its profile and a
  table repeats the content of an earlier revision: INSERT OR IGNORE skips the artifact row that the
  latest row's foreign key needs (`LedgerTheorems.RefusedExactlyForRepeatedContent`); a run of the ledger
  that ends there is `LedgerExamples.RefusedRun`.
- `recordOutcome` inserts the outcome and updates the job in two statements.  A workflow that stops
  between them leaves a job running for ever: no call of any kind, a publish included, ends it
  (`LedgerExamples.StrandedRun`, `LedgerTheorems.StrandedForGood`).
- So does a consumer that stops between its update of the job and startWorkflow, as the same message is then
  a duplicate and the dispatch row is sent (`LedgerLives.LostClaimRun`), and so does a workflow instance that
  ends without an outcome (`LedgerLives.LostInstanceRun`).  Exactly the jobs of these kinds can never end
  (`LedgerLives.ReachedEndsUnlessLost`, `JobLives.Abandoned`).
- `getCompletedSession` looks up an object's metadata in the first row that names its key.  That row may
  be an aborted attempt, or a row that lost a race; the completed session is then unreadable.  Exactly
  when is `UploadReading.UploadedReadable` and `UploadReading.DeduplicatedReadable`; a readable session can
  become unreadable, exactly as `UploadReading.DeduplicatedStaysReadable` says.  Effects of calls that lead
  from empty tables to such sessions are `UploadExamples.Shadowed`.
- With clamped pivots `_solve` answers rightly exactly for the systems that have a solution that is 0 at every
  clamped column (`LinearSolve.ClampedSolve`); which columns those are depends on the coefficients alone
  (`LinearSolve.ClampsByCoefficients`).
- A rotation that loses its race has inserted its token pair already, and if its call stops before it revokes
  the grant the rows stay usable (`OAuthGrant.OrphanRun`).  Exactly such rotations leave usable refresh rows
  that nobody was handed (`OAuthGrant.OrphansAreLosers`, `OAuthGrant.OrphansStayUnknown`).

## Model

| member | source | states |
|---|---|---|
| JobRuns.HistoryKept | cloudflare/worker/src/job-ledger.ts:899-926 | under any step every run before the current one keeps a failed outcome |
| JobRuns.PendingKept | cloudflare/worker/src/job-ledger.ts:642-682 | an outcome update still to come, which has no status guard, is always for the current run and agrees with its outcome row |
| JobRuns.StepKeeps | cloudflare/worker/src/job-ledger.ts:533-562 | any step of any call on a job keeps its invariant, its outcomes and a success |
| JobRuns.SuccessKeeps | cloudflare/worker/src/job-ledger.ts:742-875 | publishing a run without an outcome row finds it current and running, and keeps the invariant |
| JobRuns.StrandedIsReachable | cloudflare/worker/src/job-ledger.ts:642-682 | a failing run that stops between recordOutcome's two writes leaves a running job whose run is decided |
| JobRuns.StrandedForever | cloudflare/worker/src/job-ledger.ts:877-926 | no sequence of the job's own calls, publishing aside, ends such a job or starts another run of it |
| JobLives.LifeKeeps | cloudflare/worker/src/job-ledger.ts:533-562 | every step of every live call keeps the job's invariant, and what is alive within what has happened |
| JobLives.AbandonedStays | cloudflare/worker/src/job-ledger.ts:928-955 | no step revives an abandoned job: a running one, undecided, whose instance is dead or can never be created as dispatch, messages, claims and senders are all spent |
| JobLives.EndsUnlessAbandoned | cloudflare/worker/src/job-ledger.ts:1036-1089 | some live calls end a job exactly when it is neither stranded nor abandoned |
| JobLives.LostClaim | cloudflare/worker/src/job-ledger.ts:555-561 | a consumer that stops after its update of the job and before startWorkflow abandons a new job |
| JobLives.LostInstance | cloudflare/worker/src/workflow.ts:253-266 | an instance that ends without an outcome abandons a new job |
| LedgerTheorems.StrandedForGood | cloudflare/worker/src/job-ledger.ts:742-926 | in the whole ledger, publishing included, a stranded job stays stranded over any run |
| LedgerLives.LostForGood | cloudflare/worker/src/job-ledger.ts:533-955 | in the whole ledger, publishing included, no run ends a stranded or abandoned job |
| LedgerLives.ReachedEndsUnlessLost | cloudflare/worker/src/job-ledger.ts:533-955 | in every state the ledger reaches, some run ends a job exactly when it is neither stranded nor abandoned |
| LedgerLives.LostClaimRun | cloudflare/worker/src/job-ledger.ts:1062-1089 | a run from the empty ledger whose consumer stops before startWorkflow, and which abandons its job |
| LedgerLives.LostInstanceRun | cloudflare/worker/src/workflow.ts:243-266 | a run from the empty ledger whose instance ends without an outcome, and which abandons its job |
| LedgerExamples.StrandedRun | cloudflare/worker/src/workflow.ts:253-266 | a run from the empty ledger that leaves a job stranded |
| LedgerExamples.RefusedRun | cloudflare/worker/src/workflow.ts:170-221 | for any two requests of a profile, a run from the empty ledger after which one job has won and the other's prepared publish of equal table content, newer and undecided, is refused |
| LedgerSafety.PublishKeeps | cloudflare/worker/src/job-ledger.ts:742-875 | the publish batch keeps the invariant of the whole ledger: pointers, artifacts, outcomes, revisions |
| LedgerSafety.InsertedJobKeeps | cloudflare/worker/src/job-ledger.ts:372-456 | acceptJob's batch, unless a unique key refuses it, keeps that invariant under any interleaving |
| LedgerSafety.ApplyKeeps | cloudflare/worker/src/job-ledger.ts:345-926 | every step of every call keeps it |
| LedgerSafety.RunKeeps | cloudflare/worker/src/job-ledger.ts:345-926 | so every run of the ledger keeps it |
| LedgerTheorems.OutcomeLaw | cloudflare/worker/src/workflow.ts:238-268 | in every reachable state all earlier runs failed, no later run has an outcome, and a row is succeeded exactly when its current run's outcome is |
| LedgerTheorems.Publication | cloudflare/worker/src/workflow.ts:170-221 | in every reachable state a profile's pointer and both table rows exist exactly when a job has won, name the same winner, and it has the greatest revision of all winners |
| LedgerTheorems.RunsOnlyAdvance | cloudflare/worker/src/job-ledger.ts:742-875 | over any continuation of any run winners stay winners and pointers never go back |
| LedgerTheorems.RefusedExactlyForRepeatedContent | cloudflare/migrations/0007_tables.sql:7-40 | when a prepared publish of an undecided run is refused: newest revision and table content that another revision of the profile holds, and in no other case |
| LedgerTheorems.TablesRefusedExactly | cloudflare/worker/src/job-ledger.ts:789-809 | the same for the artifact statements alone |
| LedgerTheorems.ArtifactsOfBatch | cloudflare/worker/src/job-ledger.ts:789-809 | a committed batch stores each table at its revision unless another revision holds the content, whatever the latest rows hold, and changes no other artifact row |
| LedgerTheorems.AnswersAgree | cloudflare/worker/src/job-ledger.ts:345-456 | all successful answers for one event, from any interleaved or repeated calls, name one job, one revision and one digest |
| LedgerTheorems.JobsAreDistinct | cloudflare/worker/src/job-ledger.ts:350-370 | two jobs of a profile differ in event, digest and revision, and revisions stay within the counter |
| LedgerTheorems.StoreLaw | cloudflare/worker/src/profile-do.ts:340-425 | before a purge a profile object's revision counts its plays, their revisions differ, and every enqueued play has its job |
| LedgerCalls.PublishEffect | cloudflare/worker/src/job-ledger.ts:742-875 | exactly when a publish past its checks writes nothing; else its two artifact rows, its success, and the pointer and latest rows exactly for a newest revision |
| LedgerCalls.RetryEffect | cloudflare/worker/src/job-ledger.ts:899-926 | a failed job is queued again at the next run, with nothing asked of it |
| LedgerCalls.CancelEffect | cloudflare/worker/src/job-ledger.ts:877-897 | the four statements of cancelling a queued job end it cancelled, with a cancelled outcome |
| LedgerCalls.FailureEffect | cloudflare/worker/src/workflow.ts:253-266 | recording a failure leaves a decided run's outcomes alone; else it decides the current run |
| LedgerCalls.D1JobLedger.ExistingFor | cloudflare/worker/src/job-ledger.ts:345-348 | finds the job of the event, else of the idempotency key, and writes nothing |
| LedgerCalls.D1JobLedger.ReserveRevision | cloudflare/worker/src/job-ledger.ts:350-370 | takes the counter's next value for this request, and moves no other counter |
| LedgerCalls.D1JobLedger.AcceptJob | cloudflare/worker/src/job-ledger.ts:372-456 | a new event and key make one queued job at the next revision; otherwise a duplicate exactly for the same request and a conflict for any other, and no job or counter changes |
| LedgerCalls.D1JobLedger.ManualRetry | cloudflare/worker/src/job-ledger.ts:899-926 | succeeds exactly for a failed job, moves it to the next run with its outcomes kept, and touches nothing else |
| LedgerCalls.D1JobLedger.Cancel | cloudflare/worker/src/job-ledger.ts:877-897 | a queued job ends cancelled with its outcome, a running one is only asked to stop, any other stays; nothing else changes |
| LedgerCalls.D1JobLedger.RecordFailure | cloudflare/worker/src/job-ledger.ts:642-682 | records exactly if the run has no outcome, and then the job's row and outcome agree; else changes nothing |
| LedgerCalls.D1JobLedger.RecordSuccessAndPublish | cloudflare/worker/src/job-ledger.ts:742-875 | exactly when it rejects, and then nothing is written; else the job has won, each table is stored unless another revision holds its content, and pointer and latest rows move exactly for a newest revision |
| LedgerCalls.D1JobLedger.AcceptPlayEvent | cloudflare/worker/src/profile-do.ts:340-406 | acknowledges exactly a new play, stored at the next revision, or the same play again, which changes nothing stored; else nothing changes |
| LedgerCalls.D1JobLedger.MarkPlayEnqueued | cloudflare/worker/src/profile-do.ts:408-425 | the play is marked and nothing else changes |
| LedgerCalls.D1JobLedger.HandlePlay | cloudflare/worker/src/index.ts:644-717 | an admitted play with a new event and key is accepted as a new job at the next revision; with a known one it is a duplicate exactly for the same request, else a conflict; unless in conflict the stored play is marked and has that job |
| Frames.NonceForFrame | cloudflare/worker/src/upload-protocol.ts:470-479 | rejects exactly a base that is not 12 bytes and numbers above 65535 or a part below 1 |
| Frames.NonceTellsFrame | cloudflare/worker/src/upload-protocol.ts:470-479 | the nonce keeps the base's first eight bytes, and its last four give part and frame number back |
| Frames.NoncesDiffer | cloudflare/worker/src/upload-protocol.ts:470-479 | no two frames of one object share a nonce (section 8 of NIST SP 800-38D) |
| Frames.WriterBound | cloudflare/worker/src/upload-protocol.ts:715-723 | the writer refuses exactly the parts that need more frames than it has numbers |
| Frames.FrameRoundTrip | cloudflare/worker/src/upload-protocol.ts:853-869 | a sealed frame opens to its plaintext and leaves the bytes after it |
| Frames.PartRoundTrip | cloudflare/worker/src/upload-protocol.ts:850-874 | so does a sealed part, frame by frame |
| Frames.PartsRoundTrip | cloudflare/worker/src/upload-protocol.ts:849-880 | so do all parts of an object, with their recorded sizes and digests |
| Frames.SortedIsTheOrder | cloudflare/worker/src/upload-protocol.ts:849-850 | sorting the records gives the order of part numbers, however they were recorded |
| Frames.ObjectRoundTrip | cloudflare/worker/src/upload-protocol.ts:652-776 | every split into parts and every order of records decrypts to the plaintext with a clean end, and verifies exactly for a plaintext with the SQLite header |
| Frames.VerifiedEnd | cloudflare/worker/src/upload-protocol.ts:842-890 | for any cipher and any stored bytes: a clean end means the recorded total size and digest, and each part's slice its recorded size and digest |
| Frames.VerifiedDecrypts | cloudflare/worker/src/upload-protocol.ts:778-832 | an object that passed verification decrypts later, to a plaintext with the SQLite header |
| EnvelopeStreams.EncryptedPart.NextFrame | cloudflare/worker/src/upload-protocol.ts:675-689 | the next frame of the pending bytes, however the source chunks them |
| EnvelopeStreams.EncryptedPart.Pull | cloudflare/worker/src/upload-protocol.ts:692-732 | one pull seals the next frame and advances frame number and hash, ends, or fails |
| EnvelopeStreams.EncryptedPart.Drain | cloudflare/worker/src/upload-protocol.ts:652-738 | the whole stream is the sealed part, with size, hashed bytes and header flag of the plaintext, for any chunking |
| EnvelopeStreams.StreamByteReader.ReadExact | cloudflare/worker/src/upload-protocol.ts:749-763 | the bytes asked for or an error, for any chunking of the body |
| EnvelopeStreams.StreamByteReader.AssertEof | cloudflare/worker/src/upload-protocol.ts:765-775 | succeeds exactly when nothing is left |
| EnvelopeStreams.ReadFrame | cloudflare/worker/src/upload-protocol.ts:855-869 | reading a frame from a stream is opening it off the front of the remaining bytes |
| EnvelopeStreams.ReadPart | cloudflare/worker/src/upload-protocol.ts:850-874 | the same for a part: the frame loop ends, and hands on what opening the part gives |
| EnvelopeStreams.DecryptCompletedUploadObject | cloudflare/worker/src/upload-protocol.ts:842-890 | ends without error exactly when the object decrypts, and has then yielded its plaintext |
| EnvelopeStreams.VerifyEncryptedObject | cloudflare/worker/src/upload-protocol.ts:778-832 | the verdict on the whole body, for any chunking |
| Sha256Spec.PadZerosIsLeast | cloudflare/web/public/sha256.js:74-84 | the padding is the shortest that fills a block (section 5.1.1 of FIPS 180-4) |
| Sha256Facts.PaddedMessage | cloudflare/web/public/sha256.js:71-85 | a padded message is the message, 0x80, zeros and eight octets that spell its length in bits, most significant first, and no longer than whole blocks need (section 5.1.1 of FIPS 180-4) |
| Sha256Facts.LoadIsBigEndian | cloudflare/web/public/sha256.js:46-49 | four octets are a word with the first octet most significant (section 3.1 of FIPS 180-4) |
| Sha256Spec.GrownIsW | cloudflare/web/public/sha256.js:50-56 | the words grown one by one are the message schedule of section 6.2.2 of FIPS 180-4 |
| Sha256Spec.HashBlocksAppend | cloudflare/web/public/sha256.js:28-44 | hashing on from a block boundary is hashing the whole |
| Sha256Stream.ProgramWords | cloudflare/web/public/sha256.js:6-17 | the program's own constants, rotations, choices and loads are those of sections 4.1.2 and 4.2.2 of FIPS 180-4 |
| Sha256Stream.ProgramLengths | cloudflare/web/public/sha256.js:82-84 | the two 32-bit halves that the program writes are the standard's 64-bit length block |
| Sha256Stream.ProgramIsLinked | cloudflare/web/public/sha256.js:46-69 | so a block compressed with the program's words is compressed as the standard says |
| Sha256Stream.LoadWords | cloudflare/web/public/sha256.js:46-49 | the block's big-endian words |
| Sha256Stream.ExpandWords | cloudflare/web/public/sha256.js:50-56 | the in-place loop computes the message schedule |
| Sha256Stream.RunRounds | cloudflare/web/public/sha256.js:57-67 | the loop over eight shifted variables is the sixty-four rounds of the standard |
| Sha256Stream.Sha256Hasher.Compress | cloudflare/web/public/sha256.js:46-69 | one block goes into the state as the compression function says |
| Sha256Stream.Sha256Hasher.Update | cloudflare/web/public/sha256.js:28-44 | any data is appended to the message hashed so far; a finished hasher takes nothing |
| Sha256Stream.Sha256Hasher.Finish | cloudflare/web/public/sha256.js:71-85 | with one block of padding or two, the state is the digest of the message |
| Sha256Stream.Sha256Hasher.DigestHex | cloudflare/web/public/sha256.js:71-87 | the digest of the message in hexadecimal, once |
| Sha256Stream.PaddedHex | cloudflare/web/public/sha256.js:86 | a number's hexadecimal text padded with zeros is its text of fixed width |
| Sha256Stream.HexWords | cloudflare/web/public/sha256.js:86 | the state's words as text, eight digits each |
| Sha256Stream.DigestOfPieces | cloudflare/web/public/sha256.js:19-88 | however a message is cut into updates, the digest is SHA-256 of the whole |
| Sha256Stream.Sha256Blob | cloudflare/web/public/sha256.js:90-96 | the digest of a blob does not depend on the chunk size |
| CanonicalJson.PrintIsWrite | cloudflare/worker/src/workflow-state.ts:118-133 | the canonical text is the plain text of the value with its members sorted, at every depth |
| JsonTheorems.StringRoundTrip | cloudflare/worker/src/workflow-state.ts:118-133 | every string, lone surrogates and controls included, reads back from its quoted text |
| JsonTheorems.IntRoundTrip | cloudflare/worker/src/workflow-state.ts:118-133 | every integer reads back from its digits |
| JsonTheorems.ValueRoundTrip | cloudflare/worker/src/workflow-state.ts:118-133 | every value reads back from its text, whatever follows it |
| JsonTheorems.PrintRoundTrip | cloudflare/worker/src/workflow-state.ts:118-133 | an RFC 8259 reader gets the normal form back from the canonical text |
| JsonTheorems.KeysAscend | cloudflare/worker/src/workflow-state.ts:128-131 | a printed object's members are in ascending order of their keys, compared by UTF-16 code units at the first difference |
| JsonTheorems.SortForgetsOrder | cloudflare/worker/src/workflow-state.ts:128-131 | two member lists sort alike exactly when they have the same members |
| JsonTheorems.SameNormalForm | cloudflare/worker/src/workflow-state.ts:118-133 | normal forms agree exactly for values that differ at most in member order |
| JsonTheorems.PrintDetermines | cloudflare/worker/src/job-ledger.ts:181-195 | canonical texts are equal exactly when the values are: digest preimages are unambiguous and free of order |
| TransportHeaders.HeaderFits | cloudflare/worker/src/container-bridge.ts:129-136 | a header is ASCII and within the reader's bound |
| TransportHeaders.HeaderRoundTrip | cloudflare/container/entrypoint.py:85-102 | Python reads back name, digest and size from the header that the Worker writes |
| Framing.OneLengthFits | cloudflare/container/entrypoint.py:79-144 | under the transport's length every file and the context are recovered and nothing after them is read; under any other length the same bytes are rejected |
| Framing.TransportEnvIsLawful | cloudflare/worker/src/container-bridge.ts:129-155 | the repository's own headers, names and limits meet what the transport theorems ask of them |
| Framing.AcceptedBody | cloudflare/container/entrypoint.py:79-144 | whatever arrives, an accepted body has exactly the five files within their bounds, and exactly its Content-Length was read |
| TransportStreams.EmitFile | cloudflare/worker/src/container-bridge.ts:165-180 | a file's section is emitted exactly if the file decrypts |
| TransportStreams.FramedStream | cloudflare/worker/src/container-bridge.ts:157-203 | the stream ends well exactly when all files decrypt, and is then the emission as a whole |
| TransportStreams.TransportLengthIsExact | cloudflare/worker/src/container-bridge.ts:151-155 | the length computed before any decryption is the number of bytes emitted |
| TransportStreams.BoundedBody.Read | cloudflare/container/entrypoint.py:54-60 | never more than the length grants; empty only at an end |
| TransportStreams.ReadExact | cloudflare/container/entrypoint.py:67-77 | the bytes asked for or an early end, under any short reads |
| TransportStreams.Receive | cloudflare/container/entrypoint.py:79-144 | reading from a socket in any pieces is reading the bytes as a whole |
| TransportStreams.EndToEnd | cloudflare/worker/src/container-bridge.ts:157-203 | five plaintexts, however split into parts and chunks, arrive through encryption, storage, decryption and wire as the five files |
| UploadTables.DeletedKeeps | cloudflare/worker/src/upload-protocol.ts:1337-1353 | deleting an object that no entry points at keeps every invariant and every shared object |
| UploadTables.AssembledKeeps | cloudflare/worker/src/upload-protocol.ts:1281-1288 | completing an upload keeps them, as no entry points at the key of an open upload |
| UploadTables.RegisteredKeeps | cloudflare/worker/src/upload-store.ts:347-358 | registering a verified object whose upload is closed keeps them |
| UploadTables.FileDoneKeeps | cloudflare/worker/src/upload-store.ts:232-251 | so does marking a file with the registered entry |
| UploadTables.StateKeeps | cloudflare/worker/src/upload-store.ts:288-310 | so does ending an active session, or completing one whose files are all resolved |
| UploadTables.CreatedKeeps | cloudflare/migrations/0005_upload_protocol.sql:43-46 | so does a new session whose manifest has no live one |
| UploadTables.CompletedResolves | cloudflare/worker/src/upload-protocol.ts:1274-1315 | each file of a completed session is at a live object that was verified as its content |
| UploadTables.OthersLeftAlone | cloudflare/worker/src/upload-protocol.ts:1327-1353 | what a call does to live sessions and what is theirs leaves every other session its row, its open uploads and, while it is live, its objects |
| UploadService.ValidatePartLayout | cloudflare/worker/src/upload-protocol.ts:1091-1105 | passes exactly for parts 1 to n within their bounds that add up to the file |
| UploadService.Service.CreateSession | cloudflare/worker/src/upload-store.ts:177-230 | goes in whole, and only when the manifest has no live session |
| UploadService.Service.PlanFiles | cloudflare/worker/src/upload-protocol.ts:1143-1171 | each row is the dedup entry, or an upload that nobody else has for a key that no entry points at |
| UploadService.Service.Start | cloudflare/worker/src/upload-protocol.ts:1126-1203 | returns a live session of the manifest, an old one untouched or a new one with its rows and its whole time; without failures a manifest without one gets one, completed at once exactly if all contents are known, and asking again changes nothing; a start that throws without failures leaves sessions, objects and open uploads as they were, and none ever touches what was there |
| UploadService.Service.UploadPart | cloudflare/worker/src/upload-protocol.ts:1213-1272 | what is returned is what is recorded, that part alone is added, and recorded parts never change; without failures a part is recorded exactly if size and digest fit, and else its session ends; other sessions are untouched |
| UploadService.Service.RecordPart | cloudflare/worker/src/upload-store.ts:253-286 | a part that returns is recorded as given; nothing but this part is ever added |
| UploadService.Service.CompleteFile | cloudflare/worker/src/upload-protocol.ts:1278-1299 | touches this file only; without failures it succeeds exactly for an open upload that is laid out and verifies; then its content has an entry, the earlier one if there was one, and its own object stays exactly if the entry is for it |
| UploadService.Service.Complete | cloudflare/worker/src/upload-protocol.ts:1274-1315 | a return means a completed session; without failures it returns exactly if every file can be completed in time, and else the session is aborted and cleaned up; whatever fails, only this session's row and uploads and keys it created are touched |
| UploadService.Service.Abort | cloudflare/worker/src/upload-protocol.ts:1317-1325 | without failures an active session ends aborted and cleaned up, and a completed one is left alone; whatever fails, only this session's row and uploads and keys it created are touched |
| UploadService.Service.CleanupExpired | cloudflare/worker/src/upload-protocol.ts:1327-1335 | whatever fails, every session that is not overdue keeps its row, its open uploads and, while live, its objects, and an overdue one is as it was or expired; without failures the overdue sessions, and as many as the answer says, end expired and cleaned up |
| UploadService.Service.CleanupSessionObjects | cloudflare/worker/src/upload-protocol.ts:1337-1353 | only removes objects and open uploads; without failures nothing of the session is left but what entries point at |
| UploadService.Service.AnyRun | cloudflare/worker/src/upload-protocol.ts:1126-1353 | any calls, failing or stopping at any await: entries point at verified objects and keep them, and the files of every completed session are at such objects for good |
| UploadReading.GetCompletedSession | cloudflare/worker/src/upload-store.ts:138-175 | answers exactly if every file of a completed session resolves, with what it resolves to |
| UploadReading.FirstRowIsFirst | cloudflare/worker/src/upload-store.ts:149-156 | the owner query finds a row that names the key, the given one exactly if no earlier one does |
| UploadReading.UploadedReadable | cloudflare/worker/src/upload-store.ts:144-148 | a file that a completed session uploaded can be read exactly if the session kept its own object |
| UploadReading.DeduplicatedReadable | cloudflare/worker/src/upload-store.ts:149-172 | a deduplicated file can be read exactly if no row before its uploader's names the key |
| UploadReading.HasHome | cloudflare/worker/src/upload-store.ts:149-156 | every file of a completed session has its uploader's row, so the lemma before always applies |
| UploadReading.OwnObjectsStayReadable | cloudflare/worker/src/upload-store.ts:138-175 | a file that kept its own object can be read ever after |
| UploadReading.HomeStays | cloudflare/worker/src/upload-store.ts:149-156 | the row that uploaded a completed session's object stays that row |
| UploadReading.DeduplicatedStaysReadable | cloudflare/worker/src/upload-store.ts:149-172 | a deduplicated file can be read later exactly if no row inserted before its uploader's has come to name the key |
| UploadExamples.DoKeeps | cloudflare/worker/src/upload-protocol.ts:1126-1353 | each enabled effect of a call keeps every invariant and every shared object |
| UploadExamples.Shadowed | cloudflare/worker/src/upload-protocol.ts:1126-1353 | enabled effects lead from empty tables through an aborted attempt, its second attempt, a lost race and a later sharer, to three completed sessions |
| UploadExamples.LoserIsUnreadable | cloudflare/worker/src/upload-protocol.ts:1290-1299 | in tables so reached, the winner of the race can be read, and the completed session that lost it cannot |
| UploadExamples.SharerIsUnreadable | cloudflare/worker/src/upload-store.ts:149-160 | in tables so reached, a completed session of shared files finds the aborted attempt's row and cannot be read |
| OAuthGrant.ApplyKeeps | cloudflare/worker/src/oauth.ts:500-683 | every step of every racing call keeps the grant's invariant |
| OAuthGrant.RunKeeps | cloudflare/worker/src/oauth.ts:500-683 | so every run does |
| OAuthGrant.OneChain | cloudflare/worker/src/oauth.ts:549-683 | the refresh tokens handed out form one chain and no two calls got the same; while the grant stands, and only then, the chain's last token and every access token handed out are unrevoked |
| OAuthGrant.RevocationIsFinal | cloudflare/worker/src/oauth.ts:598-609 | after revocation the chain stands still, and every token handed out then or later, access and refresh alike, is revoked |
| OAuthGrant.ReuseRevokes | cloudflare/worker/src/oauth.ts:611-683 | a call presenting a token that was rotated, at its read or behind its back, gets nothing, and if it ends the grant is revoked (section 4.14.2 of RFC 9700) |
| OAuthGrant.ReuseAlone | cloudflare/worker/src/oauth.ts:621-641 | such a call run to its end always revokes the grant and all its tokens |
| OAuthGrant.OrphansAreLosers | cloudflare/worker/src/oauth.ts:655-677 | a usable refresh row outside the chain comes exactly from a rotation that lost, whose inserts are not conditional |
| OAuthGrant.OrphansStayUnknown | cloudflare/worker/src/oauth.ts:674-682 | a row outside the chain stays outside, and its token is never handed out |
| OAuthGrant.RevocationEndsOrphans | cloudflare/worker/src/oauth.ts:598-609 | revoking the grant ends every such row |
| OAuthGrant.OrphanRun | cloudflare/worker/src/oauth.ts:655-677 | a run of two racing rotations that leaves such a row usable |
| OAuthGrant.EveryGrant | cloudflare/worker/src/oauth.ts:500-683 | on a server with many grants each keeps its own invariant |
| OAuthCalls.GrantRows.IssueTokenPair | cloudflare/worker/src/oauth.ts:549-596 | the four statements with their negative marker are one claim of the code, succeed exactly for an unused one, and then leave both tokens usable and all other rows alone (section 4.1.2 of RFC 6749) |
| OAuthCalls.GrantRows.RevokeAll | cloudflare/worker/src/oauth.ts:598-609 | the three statements close the code, the grant and every token |
| OAuthCalls.GrantRows.RotateRows | cloudflare/worker/src/oauth.ts:655-677 | the batch wins exactly for a live token; a loser's pair is written usable as well, but its call goes on to revoke |
| OAuthCalls.GrantRows.ExchangeAuthorizationCode | cloudflare/worker/src/oauth.ts:500-547 | hands out one pair for an unused code, both tokens unrevoked rows, and else changes no row |
| OAuthCalls.GrantRows.RotateRefreshToken | cloudflare/worker/src/oauth.ts:611-683 | a live token is exchanged for the next of the chain and an access token, both unrevoked rows, and is then rotated; a dead one ends its whole grant and all tokens handed out |
| Collector.RowKeeps | src/oraja_training/collect/poller.py:432-480 | a row at or past its cursor leaves the chart in order and the cursor on the row |
| Collector.RowGrows | src/oraja_training/collect/poller.py:444-466 | a row past its cursor adds one play row with the plays in between lost; any other row adds none |
| Collector.CursorIsOnTop | src/oraja_training/db/store.py:853-936 | a cursor has a play row with its playcount and hash, and none above it |
| Collector.PlaysAreConserved | src/oraja_training/collect/poller.py:444-455 | a chart's play rows plus losses are the plays from the first seen to the cursor |
| Poller.Poller.FindChange | src/oraja_training/collect/poller.py:408-426 | a new generation is declared exactly for a replaced file, a chart that left, or a playcount that went back |
| Poller.CursorsAreSnapshot | src/oraja_training/collect/poller.py:432-486 | after the loop the generation's cursors are exactly the snapshot |
| Poller.LoopCounts | src/oraja_training/collect/poller.py:430-466 | new plays are the growth in play rows, losses the growth in the rows' losses, and together the sum of all advances, a chart first seen counting one |
| Poller.ScanKeeps | src/oraja_training/collect/poller.py:405-496 | a full tick, in the old generation or a new and empty one, makes the cursors the snapshot and accounts for every advance |
| Poller.RepeatedScan | src/oraja_training/collect/poller.py:405-496 | scanning the same snapshot again adds and writes nothing and starts no generation |
| Poller.SkipIsSound | src/oraja_training/collect/poller.py:390-402 | a skip on an equal signature had nothing to add, and one on the recorded time and size had nothing if these told right this once |
| Poller.ScanExtends | src/oraja_training/db/store.py:853-911 | no row's playcount or losses ever change, in any generation |
| Poller.BackfillIsOk | src/oraja_training/collect/poller.py:432-486 | an empty store, and one filled once at generation 0, are where runs may start |
| Poller.RunsConserve | src/oraja_training/collect/poller.py:382-506 | over any run of full, skipped and failed ticks and restarts, every generation and chart is conserved and its cursor on top |
| Poller.Poller.RecordError | src/oraja_training/collect/poller.py:218-230 | the generation and all rows stay; the recorded state allows no skip |
| Poller.Poller.Tick | src/oraja_training/collect/poller.py:382-506 | exactly when it skips, that a skip or a failure changes no play or cursor, and what a scan commits: the snapshot as cursors, with the rows and losses it reports added |
| Daily.StepKeepsJournal | src/oraja_training/collect/snapshot.py:228-291 | a score row keeps the journal lossless: each change's old values are the new ones before it, and folding gives the state |
| Daily.RowsAreState | src/oraja_training/collect/snapshot.py:228-291 | every row of an import is its chart's stored state afterwards |
| Daily.ScoresKeep | src/oraja_training/collect/snapshot.py:228-291 | so do all rows of an import, read against the rows loaded before it |
| Daily.ScoresAppend | src/oraja_training/collect/snapshot.py:250-275 | the journal only grows, by changes of this import |
| DailyImport.LogStepKeeps | src/oraja_training/collect/snapshot.py:293-324 | a log row keeps plays plus losses equal to the cursor less its base, leaves the cursor on the row, and touches no other chart |
| DailyImport.LogsCount | src/oraja_training/collect/snapshot.py:293-324 | the import's two counts are the growth in play rows and in the losses they account for |
| DailyImport.RowsAreCursors | src/oraja_training/collect/snapshot.py:293-324 | every log row of an import is where its chart's cursor is afterwards |
| DailyImport.LogsKeep | src/oraja_training/collect/snapshot.py:293-324 | so do all log rows of an import |
| DailyImport.ImportSetsBase | src/oraja_training/collect/snapshot.py:293-324 | the same for a whole import: a new chart's base is that of its row, a known chart's persists |
| DailyImport.PlaysSinceBaseline | src/oraja_training/collect/snapshot.py:103-332 | over any imports from an empty store, a chart's plays plus losses are its cursor less its playcount in the first import, or the whole cursor if first seen later with a play |
| DailyImport.DayWritten | src/oraja_training/collect/snapshot.py:195-226 | each date of the import holds its totals and the difference to the row before |
| DailyImport.DeltasAddUp | src/oraja_training/collect/snapshot.py:195-226 | first totals plus deltas are the later totals |
| DailyImport.ImportPlayers | src/oraja_training/collect/snapshot.py:195-226 | raises exactly when a total goes back; else the days are as above |
| DailyImport.ImportScores | src/oraja_training/collect/snapshot.py:228-291 | the loop is the steps above, and its lamp updates are those in the journal |
| DailyImport.ImportLogs | src/oraja_training/collect/snapshot.py:293-324 | the loop is the steps above, in one transaction |
| DailyImport.AcceptableExactly | src/oraja_training/collect/snapshot.py:103-160 | which pairs are accepted, in terms of their rows and the stored ones alone |
| DailyImport.CommitKeeps | src/oraja_training/collect/snapshot.py:166-332 | a committed import keeps journal, conservation and the imports' uniqueness |
| DailyImport.RememberedLater | src/oraja_training/collect/snapshot.py:73-101 | an import's summary stays what it was, whatever is imported later |
| DailyImport.DailyImporter.Run | src/oraja_training/collect/snapshot.py:103-340 | a known pair answers as before, a rejected pair changes nothing, any other is committed whole with each row as its chart's state and cursor, and answers with what it added; exactly when each |
| Replays.HitsIgnoreGauges | src/oraja_training/db/store.py:739-754 | the matching query does not look at what ingests write |
| Replays.HitsExactly | src/oraja_training/db/store.py:739-754 | the query lists exactly the plays of the chart and mode within thirty seconds, courses aside, each once and in id order |
| Replays.MatchMeans | src/oraja_training/db/store.py:739-789 | a slot is matched exactly to the only such play, mode 0 standing in for an unplayed mode 1 or 2 |
| Replays.GaugeIsNewest | src/oraja_training/db/store.py:717-729 | a play's gauge is that of the last replay row matched to it |
| Replays.OtherRow | src/oraja_training/db/store.py:717-729 | a row that names neither before nor after a play has no say in its gauge |
| Replays.ReplayTables.RefreshPlayGauge | src/oraja_training/db/store.py:717-729 | the play's gauge becomes that of its newest matched replay |
| Replays.ReplayTables.PlayMatches | src/oraja_training/db/store.py:739-754 | the first two plays the query finds |
| Replays.ReplayTables.InsertPlay | src/oraja_training/db/store.py:853-911 | a new play changes no match and no gauge |
| Replays.ReplayTables.Rematch | src/oraja_training/db/store.py:762-789 | a changed match leaves every play with the gauge of its newest matched replay, the play left and the play joined included |
| Replays.ReplayTables.Ingest | src/oraja_training/db/store.py:707-831 | new or seen before, a slot ends with the status of a first ingest from the plays of now, the long-note fallback included; every other slot's row stays and every gauge stays right |
| LinearSolve.FindPivot | src/oraja_training/model/core.py:124 | the first row with the largest entry |
| LinearSolve.ReduceColumn | src/oraja_training/model/core.py:123-136 | swap, scaling and elimination from the pivot rightward are the column step |
| LinearSolve.ColumnKeeps | src/oraja_training/model/core.py:123-136 | an unclamped column keeps the solutions and leaves a unit column |
| LinearSolve.LastColumnSolves | src/oraja_training/model/core.py:137 | without a clamp the last column is the one and only solution |
| LinearSolve.Solve | src/oraja_training/model/core.py:120-137 | returns the last column of the eliminated system: a solution exactly if there is one that is 0 at every clamped column, the only one when no pivot is clamped |
| LinearSolve.ClampedSolve | src/oraja_training/model/core.py:123-137 | for every system, clamped or not: it is solved exactly if it has a solution that is 0 at every clamped column, and the answer is then that solution |
| LinearSolve.ClampsByCoefficients | src/oraja_training/model/core.py:123-128 | which columns are clamped depends on the coefficients alone |
| LinearSolve.ClampedEquation | src/oraja_training/model/core.py:127-128 | an instance: one equation with a clamped pivot is solved exactly if its right-hand side is 0 |

## Left out

- JobRuns.StrandedForever: is about one job's own steps; LedgerTheorems.StrandedForGood is about the whole ledger, publishing included.
- LinearSolve.Solve: computes over exact reals, so rounding is not modelled.
- Poller.Poller.Tick: ends where collecting the replays begins; a failure there is a `RecordError` after the tick.  Payloads are reduced to their hashes.
- Replays.ReplayTables.Ingest: leaves out corrections of a play with `update_existing`, which overwrite the gauge column.
- CanonicalJson.PrintIsWrite: numbers are integers in plain digits; fractions, the exponent form that JavaScript gives integers from 10^21 on, and values that JSON cannot hold are not modelled.
- OAuthCalls.GrantRows.RotateRefreshToken: client and resource checks, expiry times and PKCE are reduced to whether a token is expired; what fails before the first read is not modelled.
- UploadService.Service.Start: a month and a manifest id name one manifest, as ids are minted at random; two manifests with one id, differing in kind or contents, would share keys and are not modelled.
- UploadExamples.Shadowed: is a run of effects, each enabled where it happens and in the order its call has them; the calls themselves are not run.
- UploadService.Service.CleanupExpired: the second number of its answer, how many objects it meant to delete, is not modelled.
- UploadService.Service.UploadPart: calls on one scope do not interleave within a call.  The encryption of the part is `EnvelopeStreams`; here its digest and size are given.
- UploadService.Service.CompleteFile: verification of an object is a given predicate here; `EnvelopeStreams.VerifyEncryptedObject` is what it computes.
- LedgerCalls.D1JobLedger.AcceptPlayEvent: the checks of an event's identity, the ranking of scores and the text of acknowledgements are left out.
- LedgerCalls.D1JobLedger.ManualRetry: its read and its batch are one step.
- Publishing of `publishLatest`, the self-hosted domain and empty table sets.
- JobLives.EndsUnlessAbandoned: leases, delays and retry counts only wait or give up, so a lease is taken to run out and a message to be lost at any time; a request for a job is taken to be submitted again at any time.
- Step attempts and the retries of `runStep`, audit rows, and the rate limits.
- Profile envelopes and key wrapping: foreign cryptography, as are AES-GCM, HMAC and random tokens.
- Deletion of a profile's uploads by privacy requests.
- `backfill` after collection has started: it inserts without accounting for losses.
- HTTP routing, pages, e-mail, table fetching, and the statistics beside `_solve`.
