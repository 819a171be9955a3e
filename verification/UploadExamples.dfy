/**
 A run of upload sessions after which completed sessions cannot be read.  Every effect of the run is
 one that a call has when no await fails, in a state that lets it.
 */
module UploadExamples {
  import opened Common
  import opened UploadTables
  import opened UploadService
  import opened UploadReading

  /** One await of a call that takes effect. */
  datatype Effect =
    | Open(key: Key)
    | Close(upload: MultipartId)
    | Delete(key: Key)
    | Assemble(upload: MultipartId, key: Key, parts: map<nat, Part>)
    | Register(u: UploadId, file: nat)
    | Record(u: UploadId, file: nat, number: nat, part: Part)
    | FileDone(u: UploadId, file: nat)
    | Restate(u: UploadId, state: SessionState)
    | Create(u: UploadId, session: Session)

  ghost predicate Enabled(w: World, t: Tables, e: Effect) {
    match e
    case Open(_) => true
    case Close(_) => true
    case Delete(k) => !Targeted(w, k, t.dedup)
    case Assemble(m, k, _) => m in t.open && m in t.made && t.made[m] == k && !Targeted(w, k, t.dedup)
    case Register(u, i) => OfActive(t, u, i) && Verified(w, t, t.sessions[u], i)
    case Record(u, i, number, part) =>
      OfActive(t, u, i) && Uploading(t.sessions[u].files[i], t.open) && number !in t.sessions[u].files[i].parts
        && PartInBounds(number, part)
    case FileDone(u, i) => OfActive(t, u, i) && Completable(w, t, t.sessions[u], i)
    case Restate(u, state) =>
      && u in t.sessions && t.sessions[u].state == Active && state != Active
      && (state == Done ==> forall i :: 0 <= i < |t.sessions[u].files| ==> Resolved(t.sessions[u].files[i]))
    case Create(u, s) =>
      && Creatable(t.sessions, u, s.place) && s.state == Active && |s.files| == FileCount
      && PlannedOk(w, s.place, s.files, t)
  }

  predicate OfActive(t: Tables, u: UploadId, i: nat) {
    u in t.sessions && t.sessions[u].state == Active && i < |t.sessions[u].files|
  }

  /** The content is registered, and the object is this file's own or has been deleted. */
  ghost predicate Completable(w: World, t: Tables, s: Session, i: nat)
    requires i < |s.files|
  {
    var c, k := w.contents(s.place, i), Key(s.place, i);
    && s.files[i].state == UploadRequired && s.files[i].parts != map[]
    && c in t.dedup && (t.dedup[c] == k ==> k in t.bucket && Holds(t.bucket[k], s.files[i]))
  }

  ghost function Do(w: World, t: Tables, e: Effect): Tables
    requires Enabled(w, t, e)
  {
    match e
    case Open(k) => Opened(t, k)
    case Close(m) => Closed(t, m)
    case Delete(k) => Deleted(t, k)
    case Assemble(m, k, parts) => Assembled(t, m, k, parts)
    case Register(u, i) => Registered(t, ContentAt(w, Key(t.sessions[u].place, i)), Key(t.sessions[u].place, i))
    case Record(u, i, number, part) =>
      var f := t.sessions[u].files[i];
      WithSession(t, u, WithFile(t.sessions[u], i, f.(parts := f.parts[number := part])))
    case FileDone(u, i) =>
      var s := t.sessions[u];
      WithSession(t, u, WithFile(s, i, s.files[i].(state := Completed, key := t.dedup[w.contents(s.place, i)])))
    case Restate(u, state) => WithSession(t, u, t.sessions[u].(state := state))
    case Create(u, s) => NewSession(t, u, s)
  }

  lemma DoKeeps(w: World, t: Tables, e: Effect)
    requires Sound(w, t) && Enabled(w, t, e)
    ensures Sound(w, Do(w, t, e)) && Keeps(t, Do(w, t, e))
  {
    match e
    case Open(k) => OpenedKeeps(w, t, k);
    case Close(m) => ClosedKeeps(w, t, m);
    case Delete(k) => DeletedKeeps(w, t, k);
    case Assemble(m, k, parts) => AssembledKeeps(w, t, m, k, parts);
    case Register(u, i) => RegisteredKeeps(w, t, u, i);
    case Record(u, i, number, part) => RecordedKeeps(w, t, u, i, number, part);
    case FileDone(u, i) => FileDoneKeeps(w, t, u, i);
    case Restate(u, state) => StateKeeps(w, t, u, state);
    case Create(u, s) =>
      PlannedIsCreatable(w, t, s);
      CreatedKeeps(w, t, u, s);
  }

  lemma RecordedKeeps(w: World, t: Tables, u: UploadId, i: nat, number: nat, part: Part)
    requires Sound(w, t) && Enabled(w, t, Record(u, i, number, part))
    ensures Sound(w, Do(w, t, Record(u, i, number, part))) && Keeps(t, Do(w, t, Record(u, i, number, part)))
  {
    assert UploadOk(t.sessions[u], i, t.made, t.bucket);
    PartKeeps(w, t, u, i, t.sessions[u].files[i].parts[number := part]);
  }

  /** Effects, each enabled in turn, lead from t to t'. */
  ghost predicate Leads(w: World, t: Tables, effects: seq<Effect>, t': Tables)
    decreases |effects|
  {
    if effects == [] then t' == t
    else Enabled(w, t, effects[0]) && Leads(w, Do(w, t, effects[0]), effects[1..], t')
  }

  ghost predicate Reaches(w: World, t: Tables, t': Tables) {
    exists effects :: Leads(w, t, effects, t')
  }

  lemma ReachesItself(w: World, t: Tables)
    ensures Reaches(w, t, t)
  {
    assert Leads(w, t, [], t);
  }

  lemma {:induction false} LeadsOn(w: World, t: Tables, effects: seq<Effect>, t': Tables, e: Effect)
    requires Leads(w, t, effects, t') && Enabled(w, t', e)
    ensures Leads(w, t, effects + [e], Do(w, t', e))
    decreases |effects|
  {
    if effects == [] {
      assert Leads(w, Do(w, t, e), [], Do(w, t, e));
    } else {
      assert (effects + [e])[1..] == effects[1..] + [e];
      LeadsOn(w, Do(w, t, effects[0]), effects[1..], t', e);
    }
  }

  lemma ReachesOn(w: World, t: Tables, t': Tables, e: Effect)
    requires Reaches(w, t, t') && Enabled(w, t', e)
    ensures Reaches(w, t, Do(w, t', e))
  {
    var effects :| Leads(w, t, effects, t');
    LeadsOn(w, t, effects, t', e);
  }

  lemma {:induction false} LeadsKeeps(w: World, t: Tables, effects: seq<Effect>, t': Tables)
    requires Sound(w, t) && Leads(w, t, effects, t')
    ensures Sound(w, t')
    decreases |effects|
  {
    if effects != [] {
      DoKeeps(w, t, effects[0]);
      LeadsKeeps(w, Do(w, t, effects[0]), effects[1..], t');
    }
  }

  // ----- The run ---------------------------------------------------------------------------------

  /** Every manifest lists the same five contents; everything verifies. */
  const AnyWorld: World := World((place: Place, i: nat) => i, (c: Content) => 1, (o: Body, c: Content) => true, 1, 1)

  const OnePart: map<nat, Part> := map[1 := Part(0, 1)]

  /** Some effects lead here from empty tables. */
  ghost predicate Reached(t: Tables) {
    Reaches(AnyWorld, NoTables, t)
  }

  lemma Next(t: Tables, e: Effect)
    requires Reached(t) && Enabled(AnyWorld, t, e)
    ensures Reached(Do(AnyWorld, t, e))
  {
    ReachesOn(AnyWorld, NoTables, t, e);
  }

  lemma NextOpen(t: Tables, k: Key)
    requires Reached(t)
    ensures Reached(Opened(t, k))
  {
    Next(t, Open(k));
  }

  lemma NextClose(t: Tables, m: MultipartId)
    requires Reached(t)
    ensures Reached(Closed(t, m))
  {
    Next(t, Close(m));
  }

  lemma NextDelete(t: Tables, k: Key)
    requires Reached(t) && !Targeted(AnyWorld, k, t.dedup)
    ensures Reached(Deleted(t, k))
  {
    Next(t, Delete(k));
  }

  lemma NextAssemble(t: Tables, m: MultipartId, k: Key, parts: map<nat, Part>)
    requires Reached(t) && m in t.open && m in t.made && t.made[m] == k && !Targeted(AnyWorld, k, t.dedup)
    ensures Reached(Assembled(t, m, k, parts))
  {
    Next(t, Assemble(m, k, parts));
  }

  lemma NextRegister(t: Tables, u: UploadId, i: nat)
    requires Reached(t) && OfActive(t, u, i) && Verified(AnyWorld, t, t.sessions[u], i)
    ensures Reached(Registered(t, i, Key(t.sessions[u].place, i)))
  {
    Next(t, Register(u, i));
  }

  lemma NextRecord(t: Tables, u: UploadId, i: nat)
    requires Reached(t) && OfActive(t, u, i) && Uploading(t.sessions[u].files[i], t.open)
      && t.sessions[u].files[i].parts == map[]
    ensures Reached(WithSession(t, u, WithFile(t.sessions[u], i, t.sessions[u].files[i].(parts := OnePart))))
  {
    Next(t, Record(u, i, 1, Part(0, 1)));
  }

  lemma NextDone(t: Tables, u: UploadId, i: nat)
    requires Reached(t) && OfActive(t, u, i) && Completable(AnyWorld, t, t.sessions[u], i)
    ensures Reached(WithSession(t, u,
      WithFile(t.sessions[u], i, t.sessions[u].files[i].(state := Completed, key := t.dedup[i]))))
  {
    Next(t, FileDone(u, i));
  }

  lemma NextState(t: Tables, u: UploadId, state: SessionState)
    requires Reached(t) && Enabled(AnyWorld, t, Restate(u, state))
    ensures Reached(WithSession(t, u, t.sessions[u].(state := state)))
  {
    Next(t, Restate(u, state));
  }

  lemma ReachedIsSound(t: Tables)
    requires Reached(t)
    ensures Sound(AnyWorld, t)
  {
    var effects :| Leads(AnyWorld, NoTables, effects, t);
    LeadsKeeps(AnyWorld, NoTables, effects, t);
  }

  /** Sessions 0 and 1 are for place 0, 2 for place 1, 3 for place 2. */
  function PlaceOf(u: UploadId): Place {
    if u < 2 then 0 else u - 1
  }

  /** The first of a session's five uploads. */
  function FirstOf(u: UploadId): MultipartId {
    if u == 0 then 0 else if u == 1 then 5 else 10
  }

  /** A row as its session starts, with its part, and in the end. */
  function StartedRow(u: UploadId, i: nat): FileRow {
    FileRow(UploadRequired, Key(PlaceOf(u), i), Some(Key(PlaceOf(u), i)), Some(FirstOf(u) + i), map[])
  }

  function PartRow(u: UploadId, i: nat): FileRow {
    StartedRow(u, i).(parts := OnePart)
  }

  function DoneRow(u: UploadId, i: nat): FileRow {
    PartRow(u, i).(state := Completed, key := Key(0, i))
  }

  /** A session some of whose first rows are done, and some more have their part. */
  function SessionAt(u: UploadId, parts: nat, done: nat, state: SessionState): Session {
    Session(PlaceOf(u), state, 0, 1, seq(FileCount, i requires 0 <= i < FileCount =>
      if i < done then DoneRow(u, i) else if i < parts then PartRow(u, i) else StartedRow(u, i)))
  }

  function Sharing(state: SessionState): Session {
    Session(2, state, 0, 1,
        seq(FileCount, i requires 0 <= i < FileCount => FileRow(Deduplicated, Key(0, i), None, None, map[])))
  }

  /** The first contents are registered, at objects of session 1. */
  ghost predicate Entries(t: Tables, n: nat) {
    && (forall c :: c in t.dedup <==> 0 <= c < n)
    && (forall c :: c in t.dedup ==> t.dedup[c] == Key(0, c))
    && (forall k :: k in t.bucket <==> k.place == 0 && k.file < n)
    && (forall k :: k in t.bucket ==> t.bucket[k] == Body(5 + k.file, OnePart))
  }

  /** The uploads of a session, in their order. */
  ghost predicate MadeFor(t: Tables, place: Place, first: MultipartId) {
    forall m :: first <= m < first + FileCount ==> m in t.made && t.made[m] == Key(place, m - first)
  }

  /** The uploads that a session opens. */
  lemma {:induction false} OpenFiles(t: Tables, place: Place, n: nat) returns (t': Tables)
    requires Reached(t) && forall m :: m in t.made ==> m < t.next
    ensures Reached(t') && t' == t.(open := t'.open, made := t'.made, next := t.next + n)
    ensures forall m :: m in t'.open <==> m in t.open || t.next <= m < t.next + n
    ensures forall m :: m in t'.made ==> m < t'.next
    ensures forall m :: m in t.made ==> m in t'.made && t'.made[m] == t.made[m]
    ensures forall m :: t.next <= m < t.next + n ==> m in t'.made && t'.made[m] == Key(place, m - t.next)
    decreases n
  {
    t' := t;
    if n > 0 {
      t' := OpenFiles(t, place, n - 1);
      NextOpen(t', Key(place, n - 1));
      t' := Opened(t', Key(place, n - 1));
    }
  }

  /** A session gives its uploads up. */
  lemma {:induction false} CloseFiles(t: Tables, n: nat) returns (t': Tables)
    requires Reached(t)
    ensures Reached(t') && t' == t.(open := t'.open)
    ensures forall m :: m in t'.open <==> m in t.open && m >= n
    decreases n
  {
    t' := t;
    if n > 0 {
      t' := CloseFiles(t, n - 1);
      NextClose(t', n - 1);
      t' := Closed(t', n - 1);
    }
  }

  /** A row of a session moves on. */
  lemma SessionMoves(u: UploadId, n: nat)
    requires n < FileCount
    ensures WithFile(SessionAt(u, n, 0, Active), n, PartRow(u, n)) == SessionAt(u, n + 1, 0, Active)
    ensures WithFile(SessionAt(u, FileCount, n, Active), n, DoneRow(u, n)) == SessionAt(u, FileCount, n + 1, Active)
  {
  }

  /** The parts of session 1 or 2. */
  lemma {:induction false} RecordParts(t: Tables, u: UploadId, n: nat) returns (t': Tables)
    requires Reached(t) && 1 <= u <= 2 && n <= FileCount && u in t.sessions
      && t.sessions[u] == SessionAt(u, 0, 0, Active)
    requires forall m :: 5 <= m < 15 ==> m in t.open
    ensures Reached(t') && t' == t.(sessions := t.sessions[u := SessionAt(u, n, 0, Active)])
    decreases n
  {
    t' := t;
    if n > 0 {
      t' := RecordParts(t, u, n - 1);
      assert t'.sessions[u].files[n - 1] == StartedRow(u, n - 1);
      NextRecord(t', u, n - 1);
      SessionMoves(u, n - 1);
      t' := WithSession(t', u, WithFile(t'.sessions[u], n - 1, PartRow(u, n - 1)));
    }
  }

  /** Session 1's next file is assembled and registered. */
  lemma RegisterOwn(t: Tables, n: nat) returns (t': Tables)
    requires Reached(t) && 0 < n <= FileCount && OfActive(t, 1, n - 1)
    requires t.sessions[1].place == 0 && t.sessions[1].files[n - 1] == PartRow(1, n - 1)
    requires Entries(t, n - 1)
    requires 4 + n in t.open && 4 + n in t.made && t.made[4 + n] == Key(0, n - 1)
    ensures Reached(t') && t' == t.(dedup := t'.dedup, bucket := t'.bucket, open := t.open - {4 + n}) && Entries(t', n)
  {
    var m, k := 4 + n, Key(0, n - 1);
    NextAssemble(t, m, k, OnePart);
    var assembled := Assembled(t, m, k, OnePart);
    assert 1 in OnePart;
    NextRegister(assembled, 1, n - 1);
    t' := Registered(assembled, n - 1, k);
  }

  /** The next row of session 1 or 2 is marked with the entry of its content. */
  lemma FinishFile(t: Tables, u: UploadId, n: nat) returns (t': Tables)
    requires Reached(t) && 1 <= u <= 2 && 0 < n <= FileCount && u in t.sessions
      && t.sessions[u] == SessionAt(u, FileCount, n - 1, Active)
    requires n - 1 in t.dedup && t.dedup[n - 1] == Key(0, n - 1)
    requires u == 1 ==> Key(0, n - 1) in t.bucket && t.bucket[Key(0, n - 1)] == Body(4 + n, OnePart)
    ensures Reached(t') && t' == t.(sessions := t.sessions[u := SessionAt(u, FileCount, n, Active)])
  {
    assert t.sessions[u].files[n - 1] == PartRow(u, n - 1) && 1 in OnePart;
    NextDone(t, u, n - 1);
    SessionMoves(u, n - 1);
    t' := WithSession(t, u, WithFile(t.sessions[u], n - 1, DoneRow(u, n - 1)));
  }

  /** Session 1 has completed its first files since t, each at its own object. */
  ghost predicate OwnDone(t: Tables, t': Tables, n: nat) {
    && t' == t.(sessions := t.sessions[1 := SessionAt(1, FileCount, n, Active)], dedup := t'.dedup, bucket := t'.bucket,
        open := t'.open)
    && Entries(t', n)
    && forall m :: m in t'.open <==> m in t.open && !(5 <= m < 5 + n)
  }

  lemma OwnStep(t: Tables, t': Tables, n: nat) returns (t'': Tables)
    requires Reached(t') && 0 < n <= FileCount && OwnDone(t, t', n - 1) && 4 + n in t.open
    requires 4 + n in t.made && t.made[4 + n] == Key(0, n - 1)
    ensures Reached(t'') && OwnDone(t, t'', n)
  {
    assert t'.sessions[1].files[n - 1] == PartRow(1, n - 1);
    var registered := RegisterOwn(t', n);
    assert registered.sessions[1] == SessionAt(1, FileCount, n - 1, Active) && n - 1 in registered.dedup;
    t'' := FinishFile(registered, 1, n);
    OwnJoined(t, t', registered, t'', n);
  }

  lemma OwnJoined(t: Tables, t': Tables, registered: Tables, t'': Tables, n: nat)
    requires 0 < n && OwnDone(t, t', n - 1) && Entries(registered, n)
    requires registered == t'.(dedup := registered.dedup, bucket := registered.bucket, open := t'.open - {4 + n})
    requires t'' == registered.(sessions := registered.sessions[1 := SessionAt(1, FileCount, n, Active)])
    ensures OwnDone(t, t'', n)
  {
    assert t''.sessions == t.sessions[1 := SessionAt(1, FileCount, n, Active)];
  }

  lemma NothingDone(t: Tables)
    requires 1 in t.sessions && t.sessions[1] == SessionAt(1, FileCount, 0, Active) && t.dedup == map[]
      && t.bucket == map[]
    ensures OwnDone(t, t, 0)
  {
    assert t.sessions[1 := t.sessions[1]] == t.sessions;
  }

  lemma {:induction false} CompleteOwn(t: Tables, n: nat) returns (t': Tables)
    requires Reached(t) && n <= FileCount && OwnDone(t, t, 0) && MadeFor(t, 0, 5)
    requires forall m :: 5 <= m < 15 ==> m in t.open
    ensures Reached(t') && OwnDone(t, t', n)
    decreases n
  {
    t' := t;
    if n > 0 {
      t' := CompleteOwn(t, n - 1);
      t' := OwnStep(t, t', n);
    }
  }

  /** Session 2's next object is assembled, is not the registered one, and is deleted. */
  lemma DeleteLost(t: Tables, n: nat) returns (t': Tables)
    requires Reached(t) && 0 < n <= FileCount && OfActive(t, 2, n - 1)
    requires t.sessions[2].place == 1 && t.sessions[2].files[n - 1] == PartRow(2, n - 1)
    requires Entries(t, FileCount)
    requires 9 + n in t.open && 9 + n in t.made && t.made[9 + n] == Key(1, n - 1)
    ensures Reached(t') && t' == t.(open := t.open - {9 + n})
  {
    var m, k := 9 + n, Key(1, n - 1);
    NextAssemble(t, m, k, OnePart);
    var assembled := Assembled(t, m, k, OnePart);
    assert 1 in OnePart;
    NextRegister(assembled, 2, n - 1);
    NextDelete(assembled, k);
    t' := Deleted(assembled, k);
  }

  /** Session 2 has completed its first files since t, each at session 1's object. */
  ghost predicate LostDone(t: Tables, t': Tables, n: nat) {
    && t' == t.(sessions := t.sessions[2 := SessionAt(2, FileCount, n, Active)], open := t'.open)
    && forall m :: m in t'.open <==> m in t.open && !(10 <= m < 10 + n)
  }

  lemma LostStep(t: Tables, t': Tables, n: nat) returns (t'': Tables)
    requires Reached(t') && 0 < n <= FileCount && LostDone(t, t', n - 1) && 9 + n in t.open
    requires 9 + n in t.made && t.made[9 + n] == Key(1, n - 1) && Entries(t, FileCount)
    ensures Reached(t'') && LostDone(t, t'', n)
  {
    assert t'.sessions[2].files[n - 1] == PartRow(2, n - 1);
    var deleted := DeleteLost(t', n);
    t'' := FinishFile(deleted, 2, n);
  }

  lemma {:induction false} CompleteLost(t: Tables, n: nat) returns (t': Tables)
    requires Reached(t) && n <= FileCount && LostDone(t, t, 0) && MadeFor(t, 1, 10)
    requires Entries(t, FileCount) && forall m :: 10 <= m < 15 ==> m in t.open
    ensures Reached(t') && LostDone(t, t', n)
    decreases n
  {
    t' := t;
    if n > 0 {
      t' := CompleteLost(t, n - 1);
      t' := LostStep(t, t', n);
    }
  }

  /** A session of new contents is started. */
  lemma StartSession(t: Tables, u: UploadId) returns (t': Tables)
    requires Reached(t) && u <= 2 && Creatable(t.sessions, u, PlaceOf(u)) && t.dedup == map[] && t.next == FirstOf(u)
    ensures Reached(t')
    ensures t' == t.(sessions := t.sessions[u := SessionAt(u, 0, 0, Active)], order := t.order + [u],
                     open := t'.open, made := t'.made, next := t.next + FileCount)
    ensures forall m :: m in t'.open <==> m in t.open || t.next <= m < t.next + FileCount
    ensures forall m :: m in t.made ==> m in t'.made && t'.made[m] == t.made[m]
    ensures MadeFor(t', PlaceOf(u), t.next)
  {
    ReachedIsSound(t);
    var ready := OpenFiles(t, PlaceOf(u), FileCount);
    var s := SessionAt(u, 0, 0, Active);
    forall i | 0 <= i < FileCount ensures RowPlanned(AnyWorld, s.place, i, s.files[i], ready) {
      NotYetAnyones(t, t.next + i);
      assert s.files[i] == StartedRow(u, i);
    }
    Next(ready, Create(u, s));
    t' := NewSession(ready, u, s);
  }

  lemma NotYetAnyones(t: Tables, m: MultipartId)
    requires Sound(AnyWorld, t) && t.next <= m
    ensures forall v, j: nat :: !Uploads(t.sessions, v, j, m)
  {
    forall v, j: nat ensures !Uploads(t.sessions, v, j, m) {
      if v in t.sessions && j < |t.sessions[v].files| { assert UploadOk(t.sessions[v], j, t.made, t.bucket); }
    }
  }

  /** Its objects are deleted too, but there are none. */
  lemma NothingToDelete(t: Tables, k: Key)
    requires t.dedup == map[] && t.bucket == map[]
    ensures Enabled(AnyWorld, t, Delete(k)) && Do(AnyWorld, t, Delete(k)) == t
  {
  }

  /** Session 0 is started and aborted: its uploads are closed, and there is no object to delete. */
  lemma FirstAttempt() returns (t: Tables)
    ensures Reached(t) && t == Tables(map[0 := SessionAt(0, 0, 0, Aborted)], [0], map[], map[], {}, t.made, FileCount)
  {
    ReachesItself(AnyWorld, NoTables);
    var started := StartSession(NoTables, 0);
    var closed := CloseFiles(started, FileCount);
    assert closed.open == {};
    forall i: nat | i < FileCount
      ensures Do(AnyWorld, closed, Delete(Key(0, i))) == closed
    {
      NothingToDelete(closed, Key(0, i));
    }
    NextState(closed, 0, Aborted);
    t := WithSession(closed, 0, closed.sessions[0].(state := Aborted));
    assert t.sessions == map[0 := SessionAt(0, 0, 0, Aborted)];
  }

  /** The sessions of the run: the aborted one, its second attempt, and the other manifest. */
  function Three(one: Session, two: Session): map<UploadId, Session> {
    map[0 := SessionAt(0, 0, 0, Aborted), 1 := one, 2 := two]
  }

  /** Session 1, for the same manifest, and session 2 are started. */
  lemma TwoStarts() returns (t: Tables)
    ensures Reached(t) && MadeFor(t, 0, 5) && MadeFor(t, 1, 10) && (forall m :: m in t.open <==> 5 <= m < 15)
    ensures t == Tables(Three(SessionAt(1, 0, 0, Active), SessionAt(2, 0, 0, Active)), [0, 1, 2], map[], map[], t.open,
      t.made, 15)
  {
    var first := FirstAttempt();
    var second := StartSession(first, 1);
    t := StartSession(second, 2);
    assert t.sessions == Three(SessionAt(1, 0, 0, Active), SessionAt(2, 0, 0, Active));
  }

  /** They get all their parts. */
  lemma TwoUploads() returns (t: Tables)
    ensures Reached(t) && MadeFor(t, 0, 5) && MadeFor(t, 1, 10) && (forall m :: m in t.open <==> 5 <= m < 15)
    ensures t == Tables(Three(SessionAt(1, FileCount, 0, Active), SessionAt(2, FileCount, 0, Active)), [0, 1, 2],
                        map[], map[], t.open, t.made, 15)
  {
    var started := TwoStarts();
    var parts := RecordParts(started, 1, FileCount);
    t := RecordParts(parts, 2, FileCount);
    assert t.sessions == Three(SessionAt(1, FileCount, 0, Active), SessionAt(2, FileCount, 0, Active));
  }

  /** A session all of whose files are done is completed. */
  lemma Concluding(t: Tables, u: UploadId) returns (t': Tables)
    requires Reached(t) && u in t.sessions && t.sessions[u] == SessionAt(u, FileCount, FileCount, Active)
    ensures Reached(t') && t' == t.(sessions := t.sessions[u := SessionAt(u, FileCount, FileCount, Done)])
  {
    forall i | 0 <= i < FileCount ensures Resolved(t.sessions[u].files[i]) {
      assert t.sessions[u].files[i] == DoneRow(u, i);
    }
    NextState(t, u, Done);
    t' := WithSession(t, u, t.sessions[u].(state := Done));
  }

  lemma ThreeUpdated(one: Session, two: Session, next: Session)
    ensures Three(one, two)[1 := next] == Three(next, two) && Three(one, two)[2 := next] == Three(one, next)
  {
  }

  lemma OwnSession(t: Tables) returns (t': Tables)
    requires Reached(t) && MadeFor(t, 0, 5) && t.dedup == map[] && t.bucket == map[]
    requires forall m :: 5 <= m < 15 ==> m in t.open
    requires 1 in t.sessions && t.sessions[1] == SessionAt(1, FileCount, 0, Active)
    ensures Reached(t') && Entries(t', FileCount)
    ensures t' == t.(sessions := t.sessions[1 := SessionAt(1, FileCount, FileCount, Done)],
                     dedup := t'.dedup, bucket := t'.bucket, open := t'.open)
    ensures forall m :: m in t'.open <==> m in t.open && !(5 <= m < 10)
  {
    NothingDone(t);
    var own := CompleteOwn(t, FileCount);
    t' := Concluding(own, 1);
    assert t'.sessions == t.sessions[1 := SessionAt(1, FileCount, FileCount, Done)];
  }

  /** Session 1 completes. */
  lemma OneCompletes() returns (t: Tables)
    ensures Reached(t) && Entries(t, FileCount) && MadeFor(t, 1, 10) && (forall m :: m in t.open <==> 10 <= m < 15)
      && t.order == [0, 1, 2]
    ensures t.sessions == Three(SessionAt(1, FileCount, FileCount, Done), SessionAt(2, FileCount, 0, Active))
  {
    var before := TwoUploads();
    t := OwnSession(before);
    ThreeUpdated(SessionAt(1, FileCount, 0, Active), SessionAt(2, FileCount, 0, Active),
        SessionAt(1, FileCount, FileCount, Done));
  }

  /** ... and then session 2. */
  lemma BothComplete() returns (t: Tables)
    ensures Reached(t) && Entries(t, FileCount) && t.open == {} && t.order == [0, 1, 2]
    ensures t.sessions == Three(SessionAt(1, FileCount, FileCount, Done), SessionAt(2, FileCount, FileCount, Done))
  {
    var before := OneCompletes();
    var lost := CompleteLost(before, FileCount);
    assert lost.open == {};
    t := Concluding(lost, 2);
    assert t.sessions == Three(SessionAt(1, FileCount, FileCount, Done), SessionAt(2, FileCount, FileCount, Done));
  }

  /** Session 3, of contents that are all known, is completed at its start. */
  lemma Shadowed() returns (t: Tables)
    ensures Reached(t) && Entries(t, FileCount) && t.open == {} && t.order == [0, 1, 2, 3]
    ensures t.sessions == Three(SessionAt(1, FileCount, FileCount, Done),
      SessionAt(2, FileCount, FileCount, Done))[3 := Sharing(Done)]
  {
    var before := BothComplete();
    assert PlannedOk(AnyWorld, 2, Sharing(Active).files, before);
    Next(before, Create(3, Sharing(Active)));
    var started := NewSession(before, 3, Sharing(Active));
    NextState(started, 3, Done);
    t := WithSession(started, 3, Sharing(Done));
  }

  // ----- What cannot be read afterwards ----------------------------------------------------------

  /** A completed session that cannot be read: the third kept its own metadata, but another's object. */
  lemma LoserIsUnreadable(i: nat) returns (t: Tables)
    requires i < FileCount
    ensures Reached(t) && 1 in t.sessions && 2 in t.sessions && t.sessions[1].state == Done
      && t.sessions[2].state == Done
    ensures i < |t.sessions[1].files| && i < |t.sessions[2].files| && forall u :: u in t.order ==> u in t.sessions
    ensures Readable(AnyWorld, t, t.sessions[1], i) && !Readable(AnyWorld, t, t.sessions[2], i)
  {
    t := Shadowed();
    ReachedIsSound(t);
    assert t.sessions[1].files[i] == DoneRow(1, i) && t.sessions[2].files[i] == DoneRow(2, i);
    UploadedReadable(AnyWorld, t, 1, i);
    UploadedReadable(AnyWorld, t, 2, i);
  }

  /** Another: the fourth finds the aborted attempt's row, which has no parts. */
  lemma SharerIsUnreadable(i: nat) returns (t: Tables)
    requires i < FileCount
    ensures Reached(t) && 3 in t.sessions && t.sessions[3].state == Done && i < |t.sessions[3].files|
    ensures forall u :: u in t.order ==> u in t.sessions
    ensures Expected(AnyWorld, t, t.sessions[3], i).None?
  {
    t := Shadowed();
    assert t.sessions[0].files[i] == StartedRow(0, i);
    assert FirstFile(t.sessions[0].files, Key(0, i), 0) == Some(i);
    assert FirstRow(t, Key(0, i), 0) == Some(Row(0, i));
  }
}
