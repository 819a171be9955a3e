/**
 The tables and bucket objects of upload sessions in one profile scope, and what every single effect
 of a call keeps (cloudflare/worker/src/upload-protocol.ts:1126-1353, upload-store.ts, migration 0005).

 Objects live under uploads/v1/<scope>/<month>/<manifest id>/<file name>.  A place stands for month
 and manifest id; clients mint manifest ids at random, so a place names one manifest.
 */
module UploadTables {
  import opened Common

  type Place = nat
  type Content = nat                    // (sha256, size)
  type UploadId = nat
  type MultipartId = nat

  datatype Part = Part(digest: nat, size: nat)

  /**
   A stored object: the upload that made it, which stands for the encryption metadata it carries, and
   the parts it was assembled from.
   */
  datatype Body = Body(from: MultipartId, parts: map<nat, Part>)

  const FileCount: nat := 5

  datatype Key = Key(place: Place, file: nat)

  /**
   What the tables take as given: the manifests' contents and their sizes, whether an object passes
   verification as a content, the least size of a part that is not the last, and how long a session lasts.
   */
  datatype World = World(
    contents: (Place, nat) -> Content,
    sizes: Content -> nat,
    verifies: (Body, Content) -> bool,
    minimumPart: nat,
    ttl: nat)

  function ContentAt(w: World, k: Key): Content {
    w.contents(k.place, k.file)
  }

  datatype FileState = UploadRequired | Deduplicated | Completed

  const MaxParts: nat := 10_000

  const MaxPartSize: nat := 5 * 1024 * 1024 * 1024

  predicate PartInBounds(number: nat, part: Part) {
    1 <= number <= MaxParts && 1 <= part.size <= MaxPartSize
  }

  function TotalSize(parts: map<nat, Part>, n: nat): nat
    requires forall k :: 1 <= k <= n ==> k in parts
  {
    if n == 0 then 0 else TotalSize(parts, n - 1) + parts[n].size
  }

  /** What `validatePartLayout` asks: parts 1 to n without a gap, big enough, and together the file. */
  predicate LaidOut(w: World, parts: map<nat, Part>, size: nat) {
    && parts != map[]
    && (forall k :: 1 <= k <= |parts| ==>
          k in parts && 1 <= parts[k].size <= MaxPartSize && (k < |parts| ==> w.minimumPart <= parts[k].size))
    && TotalSize(parts, |parts|) == size
  }

  datatype FileRow = FileRow(state: FileState, key: Key, created: Option<Key>, multipart: Option<MultipartId>,
                             parts: map<nat, Part>)

  datatype SessionState = Active | Done | Aborted | Expired

  datatype Session = Session(place: Place, state: SessionState, createdAt: int, expiresAt: int, files: seq<FileRow>)

  datatype Tables = Tables(
    sessions: map<UploadId, Session>,
    order: seq<UploadId>,                 // the sessions as their rows were inserted
    dedup: map<Content, Key>,             // upload_dedup, PRIMARY KEY(scope, sha256, size)
    bucket: map<Key, Body>,
    open: set<MultipartId>,               // multipart uploads neither completed nor aborted
    made: map<MultipartId, Key>,          // the key each multipart upload was created for
    next: MultipartId)

  const NoTables: Tables := Tables(map[], [], map[], map[], {}, map[], 0)

  predicate Live(s: Session) {
    s.state == Active || s.state == Done
  }

  predicate Resolved(f: FileRow) {
    f.state == Deduplicated || f.state == Completed
  }

  // ----- What every effect keeps ---------------------------------------------------------------

  /** A dedup entry points at a live object that was verified as its content. */
  ghost predicate DedupOk(w: World, dedup: map<Content, Key>, bucket: map<Key, Body>) {
    forall c :: c in dedup ==> dedup[c] in bucket && w.verifies(bucket[dedup[c]], c) && ContentAt(w, dedup[c]) == c
  }

  /** File i of a session: its own key, and once resolved the dedup entry's. */
  ghost predicate FileOk(w: World, place: Place, i: nat, f: FileRow, dedup: map<Content, Key>) {
    && (f.created.Some? ==> f.created.value == Key(place, i))
    && (f.state == UploadRequired ==> f.key == Key(place, i))
    && (Resolved(f) ==> w.contents(place, i) in dedup && dedup[w.contents(place, i)] == f.key)
  }

  ghost predicate SessionOk(w: World, s: Session, dedup: map<Content, Key>) {
    && |s.files| == FileCount
    && (forall i :: 0 <= i < |s.files| ==> FileOk(w, s.place, i, s.files[i], dedup))
    && (s.state == Done ==> forall i :: 0 <= i < |s.files| ==> Resolved(s.files[i]))
  }

  ghost predicate SessionsOk(w: World, sessions: map<UploadId, Session>, dedup: map<Content, Key>) {
    forall u :: u in sessions ==> SessionOk(w, sessions[u], dedup)
  }

  predicate BothLive(s: Session, s': Session) {
    Live(s) && Live(s') && s.place == s'.place
  }

  /** upload_live_manifest_once */
  ghost predicate LiveOnce(sessions: map<UploadId, Session>) {
    forall u, v :: u in sessions && v in sessions && BothLive(sessions[u], sessions[v]) ==> u == v
  }

  /** An active session cannot complete a multipart upload over a dedup entry's object. */
  ghost predicate NoOverwrite(w: World, s: Session, dedup: map<Content, Key>, open: set<MultipartId>) {
    s.state == Active ==> forall i :: 0 <= i < |s.files| && Uploading(s.files[i], open) ==>
      !Targeted(w, Key(s.place, i), dedup)
  }

  predicate Uploading(f: FileRow, open: set<MultipartId>) {
    f.state == UploadRequired && f.multipart.Some? && f.multipart.value in open
  }

  ghost predicate Targeted(w: World, k: Key, dedup: map<Content, Key>) {
    ContentAt(w, k) in dedup && dedup[ContentAt(w, k)] == k
  }

  ghost predicate MultipartsOk(w: World, sessions: map<UploadId, Session>, dedup: map<Content, Key>,
                               open: set<MultipartId>, made: map<MultipartId, Key>, next: MultipartId) {
    && (forall m :: m in open ==> m in made)
    && (forall m :: m in made ==> m < next)
    && (forall u :: u in sessions ==> NoOverwrite(w, sessions[u], dedup, open))
  }

  /** File i of a session and its upload: the key it is for, and when it has one. */
  ghost predicate UploadOk(s: Session, i: nat, made: map<MultipartId, Key>, bucket: map<Key, Body>)
    requires i < |s.files|
  {
    var f := s.files[i];
    && (f.multipart.Some? <==> f.created.Some?)
    && (f.multipart.Some? ==> f.multipart.value in made && made[f.multipart.value] == Key(s.place, i))
    && (f.state == Deduplicated <==> f.multipart.None?)
    && (f.state == Completed ==> f.parts != map[])
    && (forall n :: n in f.parts ==> PartInBounds(n, f.parts[n]))
    && (f.state == Completed && f.key == Key(s.place, i) ==> f.key in bucket && Holds(bucket[f.key], f))
  }

  /** The object is the one that the row's upload made of the row's parts. */
  predicate Holds(o: Body, f: FileRow) {
    f.multipart == Some(o.from) && f.parts == o.parts
  }

  ghost predicate UploadsOk(sessions: map<UploadId, Session>, made: map<MultipartId, Key>, bucket: map<Key, Body>) {
    forall u, i :: u in sessions && 0 <= i < |sessions[u].files| ==> UploadOk(sessions[u], i, made, bucket)
  }

  ghost predicate Uploads(sessions: map<UploadId, Session>, u: UploadId, i: nat, m: MultipartId) {
    u in sessions && i < |sessions[u].files| && sessions[u].files[i].multipart == Some(m)
  }

  /** No multipart upload is two sessions'. */
  ghost predicate OneOwner(sessions: map<UploadId, Session>) {
    forall u, v, i: nat, j: nat, m :: Uploads(sessions, u, i, m) && Uploads(sessions, v, j, m) ==> u == v
  }

  /** The row that uploaded the object at a key still names it. */
  ghost predicate IsHome(sessions: map<UploadId, Session>, bucket: map<Key, Body>, k: Key, u: UploadId, i: nat) {
    && k in bucket && Uploads(sessions, u, i, bucket[k].from)
    && sessions[u].files[i].key == k && sessions[u].files[i].parts == bucket[k].parts != map[]
  }

  ghost predicate HomesOk(sessions: map<UploadId, Session>, dedup: map<Content, Key>, bucket: map<Key, Body>) {
    forall c :: c in dedup ==> exists u, i: nat :: IsHome(sessions, bucket, dedup[c], u, i)
  }

  /** Objects stand at the key of their upload, which is closed. */
  ghost predicate BucketOk(bucket: map<Key, Body>, made: map<MultipartId, Key>, open: set<MultipartId>) {
    forall k :: k in bucket ==> bucket[k].from in made && made[bucket[k].from] == k && bucket[k].from !in open
  }

  ghost predicate OrderOk(sessions: map<UploadId, Session>, order: seq<UploadId>) {
    && (forall u :: u in sessions <==> u in order)
    && (forall p, q :: 0 <= p < q < |order| ==> order[p] != order[q])
  }

  /** Which upload each row and each object belongs to. */
  ghost predicate OriginsOk(t: Tables) {
    && UploadsOk(t.sessions, t.made, t.bucket) && OneOwner(t.sessions) && HomesOk(t.sessions, t.dedup, t.bucket)
    && BucketOk(t.bucket, t.made, t.open) && OrderOk(t.sessions, t.order)
  }

  ghost predicate Sound(w: World, t: Tables) {
    && DedupOk(w, t.dedup, t.bucket)
    && SessionsOk(w, t.sessions, t.dedup)
    && LiveOnce(t.sessions)
    && MultipartsOk(w, t.sessions, t.dedup, t.open, t.made, t.next)
    && OriginsOk(t)
  }

  /** Rows are only added, after those there are, and keep their uploads. */
  ghost predicate Grows(t: Tables, t': Tables) {
    && |t.order| <= |t'.order| && (forall p :: 0 <= p < |t.order| ==> t'.order[p] == t.order[p])
    && (forall u :: u in t.sessions ==> u in t'.sessions && SameUploads(t.sessions[u], t'.sessions[u]))
  }

  predicate SameUploads(s: Session, s': Session) {
    && |s.files| == |s'.files|
    && forall i :: 0 <= i < |s.files| ==>
      s'.files[i].multipart == s.files[i].multipart && s'.files[i].created == s.files[i].created
  }

  /** Between two states: dedup entries keep their object untouched, completed sessions stay as they are. */
  ghost predicate Keeps(t: Tables, t': Tables) {
    && (forall c :: c in t.dedup && t.dedup[c] in t.bucket ==>
          && c in t'.dedup && t'.dedup[c] == t.dedup[c]
          && t.dedup[c] in t'.bucket && t'.bucket[t.dedup[c]] == t.bucket[t.dedup[c]])
    && (forall u :: u in t.sessions ==>
          && u in t'.sessions && t'.sessions[u].place == t.sessions[u].place
          && (t.sessions[u].state == Done ==> t'.sessions[u] == t.sessions[u]))
    && Grows(t, t')
  }

  // ----- What belongs to other sessions --------------------------------------------------------

  ghost predicate Creates(sessions: map<UploadId, Session>, u: UploadId, i: nat, k: Key) {
    u in sessions && i < |sessions[u].files| && sessions[u].files[i].created == Some(k)
  }

  /** One of these sessions has this multipart upload. */
  ghost predicate UploadOf(t: Tables, mine: set<UploadId>, m: MultipartId) {
    exists u, i: nat :: u in mine && Uploads(t.sessions, u, i, m)
  }

  /** One of these sessions created an upload for this key. */
  ghost predicate CreatedBy(t: Tables, mine: set<UploadId>, k: Key) {
    exists u, i: nat :: u in mine && Creates(t.sessions, u, i, k)
  }

  /**
   Of what was there, only these sessions' rows and open uploads and the objects at keys that they
   created have changed.
   */
  ghost predicate LeavesOthers(t: Tables, t': Tables, mine: set<UploadId>) {
    && (forall u :: u in t.sessions && u !in mine ==> u in t'.sessions && t'.sessions[u] == t.sessions[u])
    && (forall m :: m in t.open && m !in t'.open ==> UploadOf(t, mine, m))
    && (forall k :: k in t.bucket && !CreatedBy(t, mine, k) ==> k in t'.bucket && t'.bucket[k] == t.bucket[k])
  }

  /** The same, kept closed, so that calls need not look inside. */
  ghost predicate Leaves(t: Tables, t': Tables, mine: set<UploadId>) {
    forall x {:trigger LeavesOthers(t, x, mine)} :: x == t' ==> LeavesOthers(t, x, mine)
  }

  lemma SelfLeaves(t: Tables, mine: set<UploadId>)
    ensures Leaves(t, t, mine)
  {
  }

  lemma StillMine(a: Tables, b: Tables, mine: set<UploadId>)
    requires Keeps(a, b) && mine <= a.sessions.Keys
    ensures forall m :: UploadOf(b, mine, m) ==> UploadOf(a, mine, m)
    ensures forall k :: CreatedBy(b, mine, k) ==> CreatedBy(a, mine, k)
  {
    forall m | UploadOf(b, mine, m) ensures UploadOf(a, mine, m) {
      var u, i: nat :| u in mine && Uploads(b.sessions, u, i, m);
      assert SameUploads(a.sessions[u], b.sessions[u]) && Uploads(a.sessions, u, i, m);
    }
    forall k | CreatedBy(b, mine, k) ensures CreatedBy(a, mine, k) {
      var u, i: nat :| u in mine && Creates(b.sessions, u, i, k);
      assert SameUploads(a.sessions[u], b.sessions[u]) && Creates(a.sessions, u, i, k);
    }
  }

  lemma LeavesTransitive(a: Tables, b: Tables, c: Tables, mine: set<UploadId>)
    requires Keeps(a, b) && mine <= a.sessions.Keys && Leaves(a, b, mine) && Leaves(b, c, mine)
    ensures Leaves(a, c, mine)
  {
    assert LeavesOthers(a, b, mine) && LeavesOthers(b, c, mine);
    StillMine(a, b, mine);
    assert LeavesOthers(a, c, mine);
  }

  lemma StillCreated(a: Tables, b: Tables, mine: set<UploadId>, k: Key)
    requires a.sessions == b.sessions && CreatedBy(a, mine, k)
    ensures CreatedBy(b, mine, k)
  {
    var u, i: nat :| u in mine && Creates(a.sessions, u, i, k);
    assert Creates(b.sessions, u, i, k);
  }

  /** One more step of a call. */
  lemma Onwards(a: Tables, b: Tables, c: Tables, mine: set<UploadId>)
    requires Keeps(a, b) && Keeps(b, c) && mine <= a.sessions.Keys && Leaves(a, b, mine) && Leaves(b, c, mine)
    ensures Keeps(a, c) && Leaves(a, c, mine)
  {
    KeepsTransitive(a, b, c);
    LeavesTransitive(a, b, c, mine);
  }

  lemma LeavesMore(t: Tables, t': Tables, mine: set<UploadId>, more: set<UploadId>)
    requires Leaves(t, t', mine) && mine <= more
    ensures Leaves(t, t', more)
  {
    assert LeavesOthers(t, t', mine);
    forall m | UploadOf(t, mine, m) ensures UploadOf(t, more, m) {
      var u, i: nat :| u in mine && Uploads(t.sessions, u, i, m);
      assert u in more && Uploads(t.sessions, u, i, m);
    }
    forall k | CreatedBy(t, mine, k) ensures CreatedBy(t, more, k) {
      var u, i: nat :| u in mine && Creates(t.sessions, u, i, k);
      assert u in more && Creates(t.sessions, u, i, k);
    }
    assert LeavesOthers(t, t', more);
  }

  lemma DeletedLeaves(t: Tables, k: Key, mine: set<UploadId>)
    requires CreatedBy(t, mine, k)
    ensures Leaves(t, Deleted(t, k), mine)
  {
    assert LeavesOthers(t, Deleted(t, k), mine);
  }

  lemma ClosedLeaves(t: Tables, m: MultipartId, mine: set<UploadId>)
    requires UploadOf(t, mine, m)
    ensures Leaves(t, Closed(t, m), mine)
  {
    assert LeavesOthers(t, Closed(t, m), mine);
  }

  lemma AssembledLeaves(t: Tables, m: MultipartId, k: Key, parts: map<nat, Part>, mine: set<UploadId>)
    requires UploadOf(t, mine, m) && CreatedBy(t, mine, k)
    ensures Leaves(t, Assembled(t, m, k, parts), mine)
  {
    assert LeavesOthers(t, Assembled(t, m, k, parts), mine);
  }

  lemma ReplacedLeaves(t: Tables, u: UploadId, s: Session)
    ensures Leaves(t, WithSession(t, u, s), {u})
  {
    assert LeavesOthers(t, WithSession(t, u, s), {u});
  }

  /** What only adds leaves everything alone. */
  lemma AddsLeave(t: Tables, t': Tables)
    requires t'.bucket == t.bucket && t.open <= t'.open
    requires forall u :: u in t.sessions ==> u in t'.sessions && t'.sessions[u] == t.sessions[u]
    ensures Leaves(t, t', {})
  {
    assert LeavesOthers(t, t', {});
  }

  /** The row of file i of a session makes its upload and its key the session's. */
  lemma IsMine(t: Tables, u: UploadId, i: nat)
    requires u in t.sessions && i < |t.sessions[u].files|
    ensures t.sessions[u].files[i].multipart.Some? ==> UploadOf(t, {u}, t.sessions[u].files[i].multipart.value)
    ensures t.sessions[u].files[i].created.Some? ==> CreatedBy(t, {u}, t.sessions[u].files[i].created.value)
  {
    var f := t.sessions[u].files[i];
    if f.multipart.Some? { assert u in {u} && Uploads(t.sessions, u, i, f.multipart.value); }
    if f.created.Some? { assert u in {u} && Creates(t.sessions, u, i, f.created.value); }
  }

  /** Its row, its open uploads and, while it is live, all objects under its place are as they were. */
  ghost predicate LeftAlone(t: Tables, t': Tables, v: UploadId)
    requires v in t.sessions
  {
    var s := t.sessions[v];
    && v in t'.sessions && t'.sessions[v] == s
    && (forall i :: 0 <= i < |s.files| && s.files[i].multipart.Some? && s.files[i].multipart.value in t.open ==>
          s.files[i].multipart.value in t'.open)
    && (Live(s) ==> forall file :: Key(s.place, file) in t.bucket ==>
          Key(s.place, file) in t'.bucket && t'.bucket[Key(s.place, file)] == t.bucket[Key(s.place, file)])
  }

  /** A change to live sessions and what is theirs does not touch any other session. */
  lemma OthersLeftAlone(w: World, t: Tables, t': Tables, mine: set<UploadId>, v: UploadId)
    requires Sound(w, t) && Leaves(t, t', mine) && v in t.sessions && v !in mine
    requires forall u :: u in mine && u in t.sessions ==> Live(t.sessions[u])
    ensures LeftAlone(t, t', v)
  {
    var s := t.sessions[v];
    assert LeavesOthers(t, t', mine);
    forall i: nat | i < |s.files| && s.files[i].multipart.Some?
      ensures !UploadOf(t, mine, s.files[i].multipart.value)
    {
      assert Uploads(t.sessions, v, i, s.files[i].multipart.value);
    }
    if Live(s) {
      forall file, u, i: nat | u in mine ensures !Creates(t.sessions, u, i, Key(s.place, file)) {
        if u in t.sessions { CreatesElsewhere(w, t, u, i, v, file); }
      }
    }
  }

  /** Two live sessions have different places, and so create different keys. */
  lemma CreatesElsewhere(w: World, t: Tables, u: UploadId, i: nat, v: UploadId, file: nat)
    requires Sound(w, t) && u in t.sessions && v in t.sessions && u != v
    requires Live(t.sessions[u]) && Live(t.sessions[v])
    ensures !Creates(t.sessions, u, i, Key(t.sessions[v].place, file))
  {
    assert !BothLive(t.sessions[u], t.sessions[v]);
    assert SessionOk(w, t.sessions[u], t.dedup);
    if i < |t.sessions[u].files| { assert FileOk(w, t.sessions[u].place, i, t.sessions[u].files[i], t.dedup); }
  }

  lemma KeepsTransitive(a: Tables, b: Tables, c: Tables)
    requires Keeps(a, b) && Keeps(b, c)
    ensures Keeps(a, c)
  {
  }

  // ----- Effects -------------------------------------------------------------------------------

  /** A multipart upload completes: its key now holds its object. */
  function Assembled(t: Tables, m: MultipartId, k: Key, parts: map<nat, Part>): Tables {
    t.(bucket := t.bucket[k := Body(m, parts)], open := t.open - {m})
  }

  function Deleted(t: Tables, k: Key): Tables {
    t.(bucket := t.bucket - {k})
  }

  function Closed(t: Tables, m: MultipartId): Tables {
    t.(open := t.open - {m})
  }

  function Opened(t: Tables, k: Key): Tables {
    t.(open := t.open + {t.next}, made := t.made[t.next := k], next := t.next + 1)
  }

  /** INSERT OR IGNORE */
  function Registered(t: Tables, c: Content, k: Key): Tables {
    if c in t.dedup then t else t.(dedup := t.dedup[c := k])
  }

  function WithSession(t: Tables, u: UploadId, s: Session): Tables {
    t.(sessions := t.sessions[u := s])
  }

  function NewSession(t: Tables, u: UploadId, s: Session): Tables {
    t.(sessions := t.sessions[u := s], order := t.order + [u])
  }

  function WithFile(s: Session, i: nat, f: FileRow): Session
    requires i < |s.files|
  {
    s.(files := s.files[i := f])
  }

  /** A key that no entry points at is no row's own completed object and nobody's home. */
  lemma UntargetedIsNobodys(w: World, t: Tables, k: Key)
    requires Sound(w, t) && !Targeted(w, k, t.dedup)
    ensures forall c :: c in t.dedup ==> t.dedup[c] != k
    ensures forall u, i ::
              u in t.sessions && 0 <= i < |t.sessions[u].files| && t.sessions[u].files[i].state == Completed ==>
              t.sessions[u].files[i].key != k
  {
    forall u, i | u in t.sessions && 0 <= i < |t.sessions[u].files| && t.sessions[u].files[i].state == Completed
      ensures t.sessions[u].files[i].key != k
    {
      assert SessionOk(w, t.sessions[u], t.dedup);
      assert FileOk(w, t.sessions[u].place, i, t.sessions[u].files[i], t.dedup);
    }
  }

  /** What an untargeted key holds is nothing to the origins of the rest. */
  lemma OriginsElsewhere(t: Tables, k: Key, bucket: map<Key, Body>, open: set<MultipartId>)
    requires OriginsOk(t) && BucketOk(bucket, t.made, open)
    requires forall k' :: k' in t.bucket && k' != k ==> k' in bucket && bucket[k'] == t.bucket[k']
    requires forall c :: c in t.dedup ==> t.dedup[c] != k
    requires forall u, i ::
              u in t.sessions && 0 <= i < |t.sessions[u].files| && t.sessions[u].files[i].state == Completed ==>
              t.sessions[u].files[i].key != k
    ensures OriginsOk(t.(bucket := bucket, open := open))
  {
    forall u, i | u in t.sessions && 0 <= i < |t.sessions[u].files| ensures UploadOk(t.sessions[u], i, t.made, bucket) {
      assert UploadOk(t.sessions[u], i, t.made, t.bucket);
    }
    forall c | c in t.dedup ensures exists u, i: nat :: IsHome(t.sessions, bucket, t.dedup[c], u, i) {
      var u, i: nat :| IsHome(t.sessions, t.bucket, t.dedup[c], u, i);
      assert IsHome(t.sessions, bucket, t.dedup[c], u, i);
    }
  }

  lemma AssembledKeeps(w: World, t: Tables, m: MultipartId, k: Key, parts: map<nat, Part>)
    requires Sound(w, t) && !Targeted(w, k, t.dedup) && m in t.made && t.made[m] == k
    ensures Sound(w, Assembled(t, m, k, parts)) && Keeps(t, Assembled(t, m, k, parts))
  {
    UntargetedIsNobodys(w, t, k);
    OriginsElsewhere(t, k, t.bucket[k := Body(m, parts)], t.open - {m});
  }

  lemma DeletedKeeps(w: World, t: Tables, k: Key)
    requires Sound(w, t) && !Targeted(w, k, t.dedup)
    ensures Sound(w, Deleted(t, k)) && Keeps(t, Deleted(t, k))
  {
    UntargetedIsNobodys(w, t, k);
    OriginsElsewhere(t, k, t.bucket - {k}, t.open);
  }

  lemma ClosedKeeps(w: World, t: Tables, m: MultipartId)
    requires Sound(w, t)
    ensures Sound(w, Closed(t, m)) && Keeps(t, Closed(t, m))
  {
  }

  lemma OpenedKeeps(w: World, t: Tables, k: Key)
    requires Sound(w, t)
    ensures Sound(w, Opened(t, k)) && Keeps(t, Opened(t, k))
  {
    var t' := Opened(t, k);
    forall u, i | u in t.sessions && 0 <= i < |t.sessions[u].files|
      ensures UploadOk(t.sessions[u], i, t'.made, t.bucket)
    {
      assert UploadOk(t.sessions[u], i, t.made, t.bucket);
    }
    forall u | u in t.sessions ensures NoOverwrite(w, t.sessions[u], t.dedup, t'.open) {
      NewUploadIsNobodys(w, t, u);
    }
  }

  lemma NewUploadIsNobodys(w: World, t: Tables, u: UploadId)
    requires Sound(w, t) && u in t.sessions
    ensures NoOverwrite(w, t.sessions[u], t.dedup, t.open + {t.next})
  {
    assert NoOverwrite(w, t.sessions[u], t.dedup, t.open);
    forall i | 0 <= i < |t.sessions[u].files| && Uploading(t.sessions[u].files[i], t.open + {t.next})
      ensures Uploading(t.sessions[u].files[i], t.open)
    {
      assert UploadOk(t.sessions[u], i, t.made, t.bucket);
    }
  }

  /** Registering a verified object whose own multipart upload is closed. */
  lemma RegisteredKeeps(w: World, t: Tables, u: UploadId, i: nat)
    requires Sound(w, t) && u in t.sessions && t.sessions[u].state == Active && i < |t.sessions[u].files|
    requires Verified(w, t, t.sessions[u], i)
    ensures var k := Key(t.sessions[u].place, i);
      var t' := Registered(t, ContentAt(w, k), k);
      Sound(w, t') && Keeps(t, t') && ContentAt(w, k) in t'.dedup
  {
    var k := Key(t.sessions[u].place, i);
    var c := ContentAt(w, k);
    if c !in t.dedup {
      RegisteredSessions(w, t, u, i);
      RegisteredOrigins(w, t, u, i);
      RegisteredEntry(w, t, c, k);
    }
  }

  lemma RegisteredEntry(w: World, t: Tables, c: Content, k: Key)
    requires DedupOk(w, t.dedup, t.bucket) && c !in t.dedup && k in t.bucket && w.verifies(t.bucket[k], c)
      && ContentAt(w, k) == c
    ensures DedupOk(w, t.dedup[c := k], t.bucket) && Keeps(t, t.(dedup := t.dedup[c := k]))
  {
  }

  /** A new entry leaves every session right: only this file's upload is for the entry's key, and it is closed. */
  lemma RegisteredSessions(w: World, t: Tables, u: UploadId, i: nat)
    requires SessionsOk(w, t.sessions, t.dedup) && LiveOnce(t.sessions)
    requires MultipartsOk(w, t.sessions, t.dedup, t.open, t.made, t.next)
    requires u in t.sessions && t.sessions[u].state == Active && Verified(w, t, t.sessions[u], i)
    requires w.contents(t.sessions[u].place, i) !in t.dedup
    ensures var dedup := t.dedup[w.contents(t.sessions[u].place, i) := Key(t.sessions[u].place, i)];
      SessionsOk(w, t.sessions, dedup) && MultipartsOk(w, t.sessions, dedup, t.open, t.made, t.next)
  {
    var dedup := t.dedup[w.contents(t.sessions[u].place, i) := Key(t.sessions[u].place, i)];
    forall v | v in t.sessions
      ensures SessionOk(w, t.sessions[v], dedup) && NoOverwrite(w, t.sessions[v], dedup, t.open)
    {
      assert SessionOk(w, t.sessions[v], t.dedup) && NoOverwrite(w, t.sessions[v], t.dedup, t.open);
      assert t.sessions[v].state == Active && v != u ==> !BothLive(t.sessions[u], t.sessions[v]);
    }
  }

  /** The new entry's object has its home in this file's row. */
  lemma RegisteredOrigins(w: World, t: Tables, u: UploadId, i: nat)
    requires OriginsOk(t) && SessionsOk(w, t.sessions, t.dedup) && u in t.sessions && Verified(w, t, t.sessions[u], i)
    ensures OriginsOk(t.(dedup := t.dedup[w.contents(t.sessions[u].place, i) := Key(t.sessions[u].place, i)]))
  {
    assert SessionOk(w, t.sessions[u], t.dedup);
    assert FileOk(w, t.sessions[u].place, i, t.sessions[u].files[i], t.dedup);
    assert IsHome(t.sessions, t.bucket, Key(t.sessions[u].place, i), u, i);
  }

  /** File i has just been assembled by its own upload, laid out and verified. */
  ghost predicate Verified(w: World, t: Tables, s: Session, i: nat) {
    && i < |s.files| && s.files[i].state == UploadRequired && s.files[i].parts != map[]
    && s.files[i].multipart.Some? && s.files[i].multipart.value !in t.open
    && var k := Key(s.place, i);
    && k in t.bucket && w.verifies(t.bucket[k], ContentAt(w, k)) && Holds(t.bucket[k], s.files[i])
  }

  /** markFileCompleted, with the entry that putDedup returned. */
  lemma FileDoneKeeps(w: World, t: Tables, u: UploadId, i: nat)
    requires Sound(w, t) && u in t.sessions && t.sessions[u].state == Active && i < |t.sessions[u].files|
    requires w.contents(t.sessions[u].place, i) in t.dedup
    requires t.sessions[u].files[i].state == UploadRequired && t.sessions[u].files[i].parts != map[]
    requires var k := Key(t.sessions[u].place, i);
      t.dedup[w.contents(t.sessions[u].place, i)] == k ==> k in t.bucket && Holds(t.bucket[k], t.sessions[u].files[i])
    ensures var s := t.sessions[u];
      var f := s.files[i].(state := Completed, key := t.dedup[w.contents(s.place, i)]);
      Sound(w, WithSession(t, u, WithFile(s, i, f))) && Keeps(t, WithSession(t, u, WithFile(s, i, f)))
  {
    var s := t.sessions[u];
    var c := w.contents(s.place, i);
    var s' := WithFile(s, i, s.files[i].(state := Completed, key := t.dedup[c]));
    assert FileOk(w, s.place, i, s.files[i], t.dedup);
    forall d | d in t.dedup ensures StillHome(t, u, s', t.dedup[d]) {
      if IsHome(t.sessions, t.bucket, t.dedup[d], u, i) { assert d == c; }
    }
    assert UploadOk(s, i, t.made, t.bucket);
    FileReplaced(t, u, i, s'.files[i]);
    SessionReplaced(w, t, u, s');
  }

  /** A row of a session replaced: the others' uploads are as they were. */
  lemma FileReplaced(t: Tables, u: UploadId, i: nat, f: FileRow)
    requires UploadsOk(t.sessions, t.made, t.bucket) && u in t.sessions && i < |t.sessions[u].files|
    requires UploadOk(WithFile(t.sessions[u], i, f), i, t.made, t.bucket)
    ensures forall j :: 0 <= j < |t.sessions[u].files| ==> UploadOk(WithFile(t.sessions[u], i, f), j, t.made, t.bucket)
  {
    forall j | 0 <= j < |t.sessions[u].files| && j != i
      ensures UploadOk(WithFile(t.sessions[u], i, f), j, t.made, t.bucket)
    {
      assert UploadOk(t.sessions[u], j, t.made, t.bucket);
    }
  }

  /** Replacing this session's row takes no key's uploader away. */
  ghost predicate StillHome(t: Tables, u: UploadId, s: Session, k: Key) {
    forall i: nat :: IsHome(t.sessions, t.bucket, k, u, i) ==>
      i < |s.files| && s.files[i].multipart == t.sessions[u].files[i].multipart && s.files[i].key == k
        && s.files[i].parts == t.sessions[u].files[i].parts
  }

  /** Recording a part of an open upload changes nothing else of the file. */
  lemma PartKeeps(w: World, t: Tables, u: UploadId, i: nat, parts: map<nat, Part>)
    requires Sound(w, t) && u in t.sessions && t.sessions[u].state == Active && i < |t.sessions[u].files|
    requires Uploading(t.sessions[u].files[i], t.open)
    requires forall n :: n in parts ==> PartInBounds(n, parts[n])
    ensures var s := t.sessions[u];
      var s' := WithFile(s, i, s.files[i].(parts := parts));
      Sound(w, WithSession(t, u, s')) && Keeps(t, WithSession(t, u, s'))
  {
    var s := t.sessions[u];
    var s' := WithFile(s, i, s.files[i].(parts := parts));
    assert UploadOk(s, i, t.made, t.bucket);
    FileReplaced(t, u, i, s'.files[i]);
    SessionReplaced(w, t, u, s');
  }

  /** An active session ends or is completed. */
  lemma StateKeeps(w: World, t: Tables, u: UploadId, state: SessionState)
    requires Sound(w, t) && u in t.sessions && t.sessions[u].state == Active
    requires state == Done ==> forall i :: 0 <= i < |t.sessions[u].files| ==> Resolved(t.sessions[u].files[i])
    ensures Sound(w, WithSession(t, u, t.sessions[u].(state := state)))
      && Keeps(t, WithSession(t, u, t.sessions[u].(state := state)))
  {
    var s := t.sessions[u];
    var s' := s.(state := state);
    forall j | 0 <= j < |s'.files|
      ensures UploadOk(s', j, t.made, t.bucket)
    {
      assert UploadOk(s, j, t.made, t.bucket);
    }
    SessionReplaced(w, t, u, s');
  }

  lemma SessionReplaced(w: World, t: Tables, u: UploadId, s: Session)
    requires Sound(w, t) && u in t.sessions && t.sessions[u].state == Active && s.place == t.sessions[u].place
    requires SessionOk(w, s, t.dedup) && NoOverwrite(w, s, t.dedup, t.open)
    requires SameUploads(t.sessions[u], s)
    requires forall i :: 0 <= i < |s.files| ==> UploadOk(s, i, t.made, t.bucket)
    requires forall d :: d in t.dedup ==> StillHome(t, u, s, t.dedup[d])
    ensures Sound(w, WithSession(t, u, s)) && Keeps(t, WithSession(t, u, s))
  {
    ReplacedLive(t, u, s);
    ReplacedSessions(w, t, u, s);
    ReplacedOrigins(t, u, s);
  }

  lemma ReplacedSessions(w: World, t: Tables, u: UploadId, s: Session)
    requires SessionsOk(w, t.sessions, t.dedup) && MultipartsOk(w, t.sessions, t.dedup, t.open, t.made, t.next)
    requires SessionOk(w, s, t.dedup) && NoOverwrite(w, s, t.dedup, t.open)
    ensures SessionsOk(w, t.sessions[u := s], t.dedup)
      && MultipartsOk(w, t.sessions[u := s], t.dedup, t.open, t.made, t.next)
  {
  }

  lemma ReplacedLive(t: Tables, u: UploadId, s: Session)
    requires LiveOnce(t.sessions) && u in t.sessions && t.sessions[u].state == Active && s.place == t.sessions[u].place
    ensures LiveOnce(t.sessions[u := s])
  {
  }

  lemma ReplacedOrigins(t: Tables, u: UploadId, s: Session)
    requires OriginsOk(t) && u in t.sessions && |s.files| == |t.sessions[u].files|
    requires forall i :: 0 <= i < |s.files| ==> s.files[i].multipart == t.sessions[u].files[i].multipart
    requires forall i :: 0 <= i < |s.files| ==> UploadOk(s, i, t.made, t.bucket)
    requires forall d :: d in t.dedup ==> StillHome(t, u, s, t.dedup[d])
    ensures OriginsOk(WithSession(t, u, s))
  {
    var sessions := t.sessions[u := s];
    forall a, b, i: nat, j: nat, m | Uploads(sessions, a, i, m) && Uploads(sessions, b, j, m) ensures a == b {
      assert Uploads(t.sessions, a, i, m) && Uploads(t.sessions, b, j, m);
    }
    forall d | d in t.dedup ensures exists v, i: nat :: IsHome(sessions, t.bucket, t.dedup[d], v, i) {
      var v, i: nat :| IsHome(t.sessions, t.bucket, t.dedup[d], v, i);
      assert StillHome(t, u, s, t.dedup[d]);
      assert IsHome(sessions, t.bucket, t.dedup[d], v, i);
    }
  }

  /** createSession: a new row whose place has no live session, with uploads of its own. */
  lemma CreatedKeeps(w: World, t: Tables, u: UploadId, s: Session)
    requires Sound(w, t) && u !in t.sessions && s.state == Active
    requires forall v :: v in t.sessions && Live(t.sessions[v]) ==> t.sessions[v].place != s.place
    requires SessionOk(w, s, t.dedup) && NoOverwrite(w, s, t.dedup, t.open)
    requires forall i :: 0 <= i < |s.files| ==> UploadOk(s, i, t.made, t.bucket) && OwnUpload(t.sessions, s.files[i])
    ensures Sound(w, NewSession(t, u, s)) && Keeps(t, NewSession(t, u, s))
  {
    CreatedLive(t, u, s);
    CreatedOrigins(t, u, s);
  }

  lemma CreatedLive(t: Tables, u: UploadId, s: Session)
    requires LiveOnce(t.sessions) && u !in t.sessions
    requires forall v :: v in t.sessions && Live(t.sessions[v]) ==> t.sessions[v].place != s.place
    ensures LiveOnce(t.sessions[u := s])
  {
    var sessions := t.sessions[u := s];
    forall a, b | a in sessions && b in sessions && BothLive(sessions[a], sessions[b]) ensures a == b {
      if a != u && b != u { assert BothLive(t.sessions[a], t.sessions[b]); }
    }
  }

  /** No session has this row's upload. */
  ghost predicate OwnUpload(sessions: map<UploadId, Session>, f: FileRow) {
    f.multipart.Some? ==> forall u, i: nat :: !Uploads(sessions, u, i, f.multipart.value)
  }

  lemma CreatedOrigins(t: Tables, u: UploadId, s: Session)
    requires OriginsOk(t) && u !in t.sessions
    requires forall i :: 0 <= i < |s.files| ==> UploadOk(s, i, t.made, t.bucket) && OwnUpload(t.sessions, s.files[i])
    ensures OriginsOk(NewSession(t, u, s))
  {
    var sessions := t.sessions[u := s];
    forall a, b, i: nat, j: nat, m | Uploads(sessions, a, i, m) && Uploads(sessions, b, j, m) ensures a == b {
      assert a != u ==> Uploads(t.sessions, a, i, m);
      assert b != u ==> Uploads(t.sessions, b, j, m);
    }
    forall d | d in t.dedup ensures exists v, i: nat :: IsHome(sessions, t.bucket, t.dedup[d], v, i) {
      var v, i: nat :| IsHome(t.sessions, t.bucket, t.dedup[d], v, i);
      assert IsHome(sessions, t.bucket, t.dedup[d], v, i);
    }
    forall v ensures v in sessions <==> v in t.order + [u] {}
  }

  /** What a completed session is worth: each of its files is at a live object verified as its content. */
  lemma CompletedResolves(w: World, t: Tables, u: UploadId, i: nat)
    requires Sound(w, t) && u in t.sessions && t.sessions[u].state == Done && i < FileCount
    ensures i < |t.sessions[u].files|
    ensures var f := t.sessions[u].files[i];
      f.key in t.bucket && w.verifies(t.bucket[f.key], w.contents(t.sessions[u].place, i))
  {
    assert SessionOk(w, t.sessions[u], t.dedup);
    assert FileOk(w, t.sessions[u].place, i, t.sessions[u].files[i], t.dedup);
  }
}
