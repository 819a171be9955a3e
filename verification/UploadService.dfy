/**
 `UploadService` and its store as calls in which every await may fail, with or without its effect, or
 be the last thing that ever happens (cloudflare/worker/src/upload-protocol.ts:1091-1353).  Calls on
 one scope follow one another; whatever a call leaves behind, the next one starts from.
 */
module UploadService {
  import opened Common
  import opened UploadTables

  /** How an await ends. */
  datatype Await = Fine | Throws(effect: bool) | Dies(effect: bool)

  predicate Took(a: Await) {
    a.Fine? || a.effect
  }

  /** How a call ends. */
  datatype Outcome<T> = Returned(value: T) | Threw | Died

  function Raised<T>(a: Await): Outcome<T>
    requires !a.Fine?
  {
    if a.Throws? then Threw else Died
  }

  /** The calls of the service, with what they find and are given. */
  datatype Call =
    | StartCall(u: UploadId, place: Place, now: int)
    | PartCall(u: UploadId, file: nat, number: nat, part: Part, expected: Option<nat>, now: int)
    | CompleteCall(u: UploadId, now: int)
    | AbortCall(u: UploadId)
    | CleanupCall(now: int)

  /** `validatePartLayout`, over the parts in part-number order. */
  method ValidatePartLayout(w: World, parts: map<nat, Part>, size: nat) returns (ok: bool)
    ensures ok <==> LaidOut(w, parts, size)
  {
    if |parts| == 0 {
      return false;
    }
    var total := 0;
    for index := 0 to |parts|
      invariant forall k :: 1 <= k <= index ==>
        k in parts && 1 <= parts[k].size <= MaxPartSize && (k < |parts| ==> w.minimumPart <= parts[k].size)
      invariant total == TotalSize(parts, index)
    {
      if index + 1 !in parts {
        return false;
      }
      var part := parts[index + 1];
      if part.size < 1 || part.size > MaxPartSize || (index < |parts| - 1 && part.size < w.minimumPart) {
        return false;
      }
      total := total + part.size;
    }
    return total == size;
  }

  class Service {
    const w: World
    var t: Tables
    /** How many awaits have failed so far. */
    ghost var faults: nat

    constructor (w: World)
      ensures this.w == w && Valid() && t == NoTables && faults == 0
    {
      this.w := w;
      t, faults := NoTables, 0;
    }

    /** The tables are sound; kept closed, so that calls need not look inside. */
    ghost predicate Valid()
      reads this
    {
      forall x {:trigger Sound(w, x)} :: x == t ==> Sound(w, x)
    }

    lemma CreatedHere(u: UploadId, i: nat)
      requires Valid() && u in t.sessions && i < |t.sessions[u].files|
      ensures var f := t.sessions[u].files[i];
        f.created.Some? ==> f.created.value == Key(t.sessions[u].place, i)
    {
      assert Sound(w, t);
      OwnKey(w, t, u, i);
    }

    lemma UploadingHere(u: UploadId, i: nat)
      requires Valid() && u in t.sessions && t.sessions[u].state == Active && i < |t.sessions[u].files|
      requires t.sessions[u].files[i].state == UploadRequired && t.sessions[u].files[i].multipart.Some?
      ensures var f, k := t.sessions[u].files[i], Key(t.sessions[u].place, i);
        && f.key == k && f.multipart.value in t.made && t.made[f.multipart.value] == k
        && (f.multipart.value in t.open ==> !Targeted(w, k, t.dedup))
        && UploadOf(t, {u}, f.multipart.value) && CreatedBy(t, {u}, k)
    {
      assert Sound(w, t);
      OwnUploadIsMine(w, t, u, i);
    }

    lemma FileHere(u: UploadId, i: nat)
      requires Valid() && u in t.sessions && i < FileCount
      ensures i < |t.sessions[u].files|
      ensures var f := t.sessions[u].files[i];
        && (t.sessions[u].state == Done ==> f.state != UploadRequired)
        && (forall n :: n in f.parts ==> PartInBounds(n, f.parts[n]))
        && (f.multipart.Some? ==> UploadOf(t, {u}, f.multipart.value))
    {
      assert Sound(w, t) && SessionOk(w, t.sessions[u], t.dedup) && UploadOk(t.sessions[u], i, t.made, t.bucket);
      IsMine(t, u, i);
    }

    method Wait() returns (a: Await)
      modifies this`faults
      ensures faults == old(faults) + if a.Fine? then 0 else 1
    {
      a := *;
      if !a.Fine? {
        faults := faults + 1;
      }
    }

    // ----- One await each ------------------------------------------------------------------------

    method DeleteObject(ghost mine: set<UploadId>, k: Key) returns (a: Await)
      requires Valid() && !Targeted(w, k, t.dedup) && CreatedBy(t, mine, k)
      modifies this
      ensures Valid() && Keeps(old(t), t) && Leaves(old(t), t, mine)
      ensures t == if Took(a) then Deleted(old(t), k) else old(t)
      ensures faults == old(faults) + if a.Fine? then 0 else 1
    {
      a := Wait();
      SelfLeaves(t, mine);
      if Took(a) {
        assert Sound(w, t);
        DeletedKeeps(w, t, k);
        DeletedLeaves(t, k, mine);
        t := Deleted(t, k);
      }
    }

    method AbortMultipart(m: MultipartId) returns (a: Await)
      requires Valid()
      modifies this
      ensures Valid() && Keeps(old(t), t)
      ensures t == if Took(a) then Closed(old(t), m) else old(t)
      ensures faults == old(faults) + if a.Fine? then 0 else 1
    {
      a := Wait();
      if Took(a) {
        assert Sound(w, t);
        ClosedKeeps(w, t, m);
        t := Closed(t, m);
      }
    }

    method CreateMultipart(k: Key) returns (a: Await, m: MultipartId)
      requires Valid()
      modifies this
      ensures Valid() && Keeps(old(t), t) && m == old(t).next
      ensures t == if Took(a) then Opened(old(t), k) else old(t)
      ensures faults == old(faults) + if a.Fine? then 0 else 1
    {
      a := Wait();
      m := t.next;
      if Took(a) {
        assert Sound(w, t);
        OpenedKeeps(w, t, k);
        t := Opened(t, k);
      }
    }

    /** A multipart upload that is not open any more cannot be completed. */
    method CompleteMultipart(m: MultipartId, k: Key, parts: map<nat, Part>) returns (a: Await)
      requires Valid() && (m in t.open ==> !Targeted(w, k, t.dedup) && m in t.made && t.made[m] == k)
      modifies this
      ensures Valid() && Keeps(old(t), t)
      ensures m !in old(t).open ==> !a.Fine? && t == old(t)
      ensures m in old(t).open ==> t == if Took(a) then Assembled(old(t), m, k, parts) else old(t)
      ensures faults >= old(faults)
      ensures faults == old(faults) ==> (a.Fine? <==> m in old(t).open) && !a.Dies?
    {
      a := Wait();
      if m !in t.open {
        return if a.Fine? then Throws(false) else a;
      }
      if Took(a) {
        assert Sound(w, t);
        AssembledKeeps(w, t, m, k, parts);
        t := Assembled(t, m, k, parts);
      }
    }

    /** INSERT OR IGNORE, then the row that is there. */
    method PutDedup(u: UploadId, i: nat) returns (a: Await, ref: Key)
      requires Valid() && u in t.sessions && t.sessions[u].state == Active && Verified(w, t, t.sessions[u], i)
      modifies this
      ensures Valid() && Keeps(old(t), t) && Leaves(old(t), t, {u})
      ensures var k := Key(old(t).sessions[u].place, i);
        t == if Took(a) then Registered(old(t), ContentAt(w, k), k) else old(t)
      ensures a.Fine? ==> var c := w.contents(t.sessions[u].place, i); c in t.dedup && t.dedup[c] == ref
      ensures faults == old(faults) + if a.Fine? then 0 else 1
    {
      var k := Key(t.sessions[u].place, i);
      ref := k;
      SelfLeaves(t, {u});
      a := Wait();
      if Took(a) {
        assert Sound(w, t);
        RegisteredKeeps(w, t, u, i);
        t := Registered(t, ContentAt(w, k), k);
        assert LeavesOthers(old(t), t, {u});
        ref := t.dedup[ContentAt(w, k)];
      }
    }

    method MarkFileCompleted(u: UploadId, i: nat, ref: Key) returns (a: Await)
      requires Valid() && u in t.sessions && t.sessions[u].state == Active && i < |t.sessions[u].files|
      requires t.sessions[u].files[i].state == UploadRequired && t.sessions[u].files[i].parts != map[]
      requires var c := w.contents(t.sessions[u].place, i); c in t.dedup && t.dedup[c] == ref
      requires ref == Key(t.sessions[u].place, i) ==> ref in t.bucket && Holds(t.bucket[ref], t.sessions[u].files[i])
      modifies this
      ensures Valid() && Keeps(old(t), t) && Leaves(old(t), t, {u})
      ensures var s := old(t).sessions[u];
        t == if Took(a) then WithSession(old(t), u, WithFile(s, i, s.files[i].(state := Completed, key := ref)))
          else old(t)
      ensures faults == old(faults) + if a.Fine? then 0 else 1
    {
      a := Wait();
      SelfLeaves(t, {u});
      if Took(a) {
        assert Sound(w, t);
        FileDoneKeeps(w, t, u, i);
        var s := t.sessions[u];
        ReplacedLeaves(t, u, WithFile(s, i, s.files[i].(state := Completed, key := ref)));
        t := WithSession(t, u, WithFile(s, i, s.files[i].(state := Completed, key := ref)));
      }
    }

    /** The guarded updates of a session's state: only an active row changes. */
    method MarkState(u: UploadId, state: SessionState) returns (a: Await)
      requires Valid() && state != Active
      requires state == Done && u in t.sessions ==> forall i :: 0 <= i < |t.sessions[u].files| ==>
        Resolved(t.sessions[u].files[i])
      modifies this
      ensures Valid() && Keeps(old(t), t) && Leaves(old(t), t, {u})
      ensures t == old(t) || Restated(old(t), t, u, state)
      ensures a.Fine? ==> Restated(old(t), t, u, state)
      ensures faults >= old(faults)
      ensures faults == old(faults) ==>
        !a.Dies? && (a.Fine? <==> u in old(t).sessions && old(t).sessions[u].state == Active)
    {
      a := Wait();
      SelfLeaves(t, {u});
      if u !in t.sessions || t.sessions[u].state != Active {
        return if a.Fine? then Throws(false) else a;
      }
      if Took(a) {
        assert Sound(w, t);
        StateKeeps(w, t, u, state);
        ReplacedLeaves(t, u, t.sessions[u].(state := state));
        t := WithSession(t, u, t.sessions[u].(state := state));
      }
    }

    // ----- Calls ---------------------------------------------------------------------------------

    /**
     `cleanupSessionObjects`: created objects that are not the dedup entry's, and open uploads.  When
     no await fails, nothing of the session is left in the bucket but what dedup entries point at.
     */
    method CleanupSessionObjects(ghost u: UploadId, s: Session) returns (r: Outcome<()>)
      requires Valid() && u in t.sessions && SameUploads(s, t.sessions[u]) && s.place == t.sessions[u].place
      modifies this
      ensures Valid() && Keeps(old(t), t) && OnlyRemoves(old(t), t) && Leaves(old(t), t, {u})
      ensures faults >= old(faults)
      ensures faults == old(faults) ==> r.Returned? && CleanedUp(w, t, s)
    {
      var keys: seq<Key> := [];
      SelfLeaves(t, {u});
      for i := 0 to |s.files|
        invariant Valid() && Keeps(old(t), t) && OnlyCloses(old(t), t) && Leaves(old(t), t, {u})
        invariant forall k :: 0 <= k < |keys| ==> !Targeted(w, keys[k], t.dedup) && CreatedBy(old(t), {u}, keys[k])
        invariant faults >= old(faults)
        invariant faults == old(faults) ==> forall j :: 0 <= j < i ==> FileListed(w, t, s.files[j], keys)
      {
        ghost var before, were := t, keys;
        IsMine(t, u, i);
        var r', drop := CleanupFile(u, s, i);
        Onwards(old(t), before, t, {u});
        if !r'.Returned? {
          return r';
        }
        keys := keys + if drop then [s.files[i].created.value] else [];
        forall j | 0 <= j < i && FileListed(w, before, s.files[j], were) ensures FileListed(w, t, s.files[j], keys) {}
      }
      ghost var before := t;
      r := DeleteAll({u}, keys);
      Onwards(old(t), before, t, {u});
      if faults == old(faults) {
        forall i | 0 <= i < |s.files|
          ensures !Uploading(s.files[i], t.open)
          ensures s.files[i].created.Some? && s.files[i].created.value in t.bucket ==>
            Targeted(w, s.files[i].created.value, t.dedup)
        {
          assert FileListed(w, before, s.files[i], keys);
        }
      }
    }

    /** Of one file: is its object to be deleted?  Its open upload is aborted. */
    method CleanupFile(ghost u: UploadId, s: Session, i: nat) returns (r: Outcome<()>, drop: bool)
      requires Valid() && i < |s.files| && u in t.sessions
      requires SameUploads(s, t.sessions[u]) && s.place == t.sessions[u].place
      modifies this
      ensures Valid() && Keeps(old(t), t) && OnlyCloses(old(t), t) && Leaves(old(t), t, {u})
      ensures r.Returned? ==> (drop <==> s.files[i].created.Some? && !Targeted(w, s.files[i].created.value, t.dedup))
      ensures faults >= old(faults)
      ensures faults == old(faults) ==> r.Returned? && !Uploading(s.files[i], t.open)
    {
      var f := s.files[i];
      drop := false;
      SelfLeaves(t, {u});
      if f.created.Some? {
        CreatedHere(u, i);
        var a := Wait();
        if !a.Fine? {
          return Raised(a), false;
        }
        var c := w.contents(s.place, i);
        drop := c !in t.dedup || t.dedup[c] != f.created.value;
      }
      if f.state == UploadRequired && f.multipart.Some? {
        IsMine(t, u, i);
        ClosedLeaves(t, f.multipart.value, {u});
        var a := AbortMultipart(f.multipart.value);
        if a.Dies? {
          return Died, drop;
        }
      }
      return Returned(()), drop;
    }

    method DeleteAll(ghost mine: set<UploadId>, keys: seq<Key>) returns (r: Outcome<()>)
      requires Valid() && mine <= t.sessions.Keys
      requires forall k :: 0 <= k < |keys| ==> !Targeted(w, keys[k], t.dedup) && CreatedBy(t, mine, keys[k])
      modifies this
      ensures Valid() && Keeps(old(t), t) && t == old(t).(bucket := t.bucket) && t.bucket.Keys <= old(t).bucket.Keys
      ensures Leaves(old(t), t, mine)
      ensures !r.Threw? && faults >= old(faults)
      ensures faults == old(faults) ==> r.Returned? && forall k :: k in keys ==> k !in t.bucket
    {
      var i := 0;
      SelfLeaves(t, mine);
      while i < |keys|
        invariant 0 <= i <= |keys| && Valid() && Keeps(old(t), t) && Leaves(old(t), t, mine)
        invariant t == old(t).(bucket := t.bucket) && t.bucket.Keys <= old(t).bucket.Keys
        invariant faults >= old(faults)
        invariant faults == old(faults) ==> forall j :: 0 <= j < i ==> keys[j] !in t.bucket
      {
        ghost var before := t;
        StillCreated(old(t), t, mine, keys[i]);
        var a := DeleteObject(mine, keys[i]);
        Onwards(old(t), before, t, mine);
        if a.Dies? {
          return Died;
        }
        i := i + 1;
      }
      return Returned(());
    }

    /**
     One file of `complete`: assembled, read back, verified, registered, and marked.  When no await
     fails, that succeeds exactly for a file whose open upload is laid out and verifies.
     */
    method CompleteFile(u: UploadId, i: nat) returns (r: Outcome<()>)
      requires Valid() && u in t.sessions && t.sessions[u].state == Active && i < |t.sessions[u].files|
      requires t.sessions[u].files[i].state == UploadRequired
      modifies this
      ensures Valid() && Keeps(old(t), t) && Leaves(old(t), t, {u})
      ensures OnlyFile(old(t), t, u, i)
      ensures r.Returned? ==> Resolved(t.sessions[u].files[i])
      ensures Settled(w, old(t), t, Key(old(t).sessions[u].place, i), r.Returned?)
      ensures faults >= old(faults)
      ensures faults == old(faults) ==> !r.Died? && (r.Returned? <==> CanComplete(w, old(t), old(t).sessions[u], i))
    {
      r := AssembleFile(u, i);
      if r.Returned? {
        ghost var before := t;
        r := SettleFile(u, i);
        Onwards(old(t), before, t, {u});
      }
    }

    /** The upload is laid out and completed, and its object is read back and verified. */
    method AssembleFile(u: UploadId, i: nat) returns (r: Outcome<()>)
      requires Valid() && u in t.sessions && t.sessions[u].state == Active && i < |t.sessions[u].files|
      requires t.sessions[u].files[i].state == UploadRequired
      modifies this
      ensures Valid() && Keeps(old(t), t) && t.sessions == old(t).sessions && OnlyFile(old(t), t, u, i)
      ensures Leaves(old(t), t, {u}) && t.dedup == old(t).dedup
      ensures r.Returned? ==> Verified(w, t, t.sessions[u], i)
      ensures faults >= old(faults)
      ensures faults == old(faults) ==> !r.Died? && (r.Returned? <==> CanComplete(w, old(t), old(t).sessions[u], i))
    {
      var s := t.sessions[u];
      var f := s.files[i];
      SelfLeaves(t, {u});
      if f.multipart.None? {
        return Threw;
      }
      UploadingHere(u, i);
      var laidOut := ValidatePartLayout(w, f.parts, w.sizes(w.contents(s.place, i)));
      if !laidOut {
        return Threw;
      }
      AssembledLeaves(t, f.multipart.value, f.key, f.parts, {u});
      var a := CompleteMultipart(f.multipart.value, f.key, f.parts);
      if !a.Fine? {
        return Raised(a);
      }
      a := Wait();
      if !a.Fine? {
        return Raised(a);
      }
      return if w.verifies(t.bucket[f.key], w.contents(s.place, i)) then Returned(()) else Threw;
    }

    /** The dedup entry of a verified object's content; an object that is not the entry's is deleted. */
    method Canonical(u: UploadId, i: nat) returns (a: Await, ref: Key)
      requires Valid() && u in t.sessions && t.sessions[u].state == Active && Verified(w, t, t.sessions[u], i)
      modifies this
      ensures Valid() && Keeps(old(t), t) && t == old(t).(dedup := t.dedup, bucket := t.bucket)
      ensures Leaves(old(t), t, {u})
      ensures a.Fine? ==> var c := w.contents(t.sessions[u].place, i); c in t.dedup && t.dedup[c] == ref
      ensures a.Fine? && ref == Key(t.sessions[u].place, i) ==>
        ref in t.bucket && Holds(t.bucket[ref], t.sessions[u].files[i])
      ensures Settled(w, old(t), t, Key(t.sessions[u].place, i), a.Fine?)
      ensures faults >= old(faults)
      ensures faults == old(faults) <==> a.Fine?
    {
      var k := t.sessions[u].files[i].key;
      UploadingHere(u, i);
      a, ref := PutDedup(u, i);
      if a.Fine? && ref != k {
        ghost var before := t;
        StillCreated(old(t), t, {u}, k);
        a := DeleteObject({u}, k);
        Onwards(old(t), before, t, {u});
      }
    }

    /** The verified object is registered, or gives way to the one that is, and its row is marked. */
    method SettleFile(u: UploadId, i: nat) returns (r: Outcome<()>)
      requires Valid() && u in t.sessions && t.sessions[u].state == Active && Verified(w, t, t.sessions[u], i)
      modifies this
      ensures Valid() && Keeps(old(t), t) && Leaves(old(t), t, {u})
      ensures t.open == old(t).open && OnlyFile(old(t), t, u, i)
      ensures r.Returned? ==> Resolved(t.sessions[u].files[i])
      ensures Settled(w, old(t), t, Key(old(t).sessions[u].place, i), r.Returned?)
      ensures faults >= old(faults)
      ensures faults == old(faults) ==> r.Returned?
    {
      var a, ref := Canonical(u, i);
      if !a.Fine? {
        return Raised(a);
      }
      ghost var before := t;
      a := MarkFileCompleted(u, i, ref);
      Onwards(old(t), before, t, {u});
      return if a.Fine? then Returned(()) else Raised(a);
    }

    /** The loop of `complete`, over the rows read when the call began. */
    method CompleteFiles(u: UploadId, s: Session) returns (r: Outcome<()>)
      requires Valid() && u in t.sessions && t.sessions[u] == s && s.state == Active
      modifies this
      ensures Valid() && Keeps(old(t), t) && Leaves(old(t), t, {u})
      ensures u in t.sessions && t.sessions[u].state == Active && |t.sessions[u].files| == |s.files|
      ensures r.Returned? ==> forall i :: 0 <= i < |s.files| ==> Resolved(t.sessions[u].files[i])
      ensures faults >= old(faults)
      ensures faults == old(faults) ==> !r.Died? && (r.Returned? <==> AllCanComplete(w, old(t), s))
    {
      r := Returned(());
      SelfLeaves(t, {u});
      var i := 0;
      while i < |s.files| && r.Returned?
        invariant 0 <= i <= |s.files| && Valid() && Keeps(old(t), t) && Leaves(old(t), t, {u})
        invariant u in t.sessions && t.sessions[u].state == Active && |t.sessions[u].files| == |s.files|
        invariant r.Returned? ==> Halfway(old(t), t, u, s, i)
        invariant faults >= old(faults)
        invariant faults == old(faults) ==> !r.Died? && (r.Returned? <==> CanCompleteUpTo(w, old(t), s, i))
      {
        ghost var before := t;
        r := CompleteNext(old(t), u, s, i);
        Onwards(old(t), before, t, {u});
        i := i + 1;
      }
      assert CanCompleteUpTo(w, old(t), s, |s.files|) ==> CanCompleteUpTo(w, old(t), s, i);
    }

    /** One turn of that loop: a file that is resolved already is passed over. */
    method CompleteNext(ghost start: Tables, u: UploadId, s: Session, i: nat) returns (r: Outcome<()>)
      requires Valid() && Halfway(start, t, u, s, i) && i < |s.files|
      modifies this
      ensures Valid() && Keeps(old(t), t) && Leaves(old(t), t, {u})
      ensures u in t.sessions && t.sessions[u].state == Active && |t.sessions[u].files| == |s.files|
      ensures r.Returned? ==> Halfway(start, t, u, s, i + 1)
      ensures faults >= old(faults)
      ensures faults == old(faults) ==>
        !r.Died? && (r.Returned? <==> (s.files[i].state == UploadRequired ==> CanComplete(w, start, s, i)))
    {
      SelfLeaves(t, {u});
      SameToComplete(w, start, t, u, s, i);
      if s.files[i].state != UploadRequired {
        return Returned(());
      }
      r := CompleteFile(u, i);
      assert Sound(w, old(t));
      HalfwayStep(w, start, old(t), t, u, s, i);
    }

    /**
     A session is completed only when each of its files is at a verified object.  When no await fails,
     an active session is completed exactly if all its files can be, and is else aborted and cleaned up.
     */
    method Complete(u: UploadId, now: int) returns (r: Outcome<()>)
      requires Valid()
      modifies this
      ensures Valid() && Keeps(old(t), t) && Leaves(old(t), t, {u})
      ensures r.Returned? ==> u in t.sessions && t.sessions[u].state == Done
      ensures faults >= old(faults)
      ensures faults == old(faults) ==>
        && !r.Died?
        && (r.Returned? <==> u in old(t).sessions && CompletesAt(w, old(t), old(t).sessions[u], now))
        && (r.Threw? && u in old(t).sessions && InTime(old(t).sessions[u], now) ==>
              t.sessions[u].state == Aborted && CleanedUp(w, t, old(t).sessions[u]))
    {
      SelfLeaves(t, {u});
      var a := Wait();
      if !a.Fine? {
        return Raised(a);
      }
      if u !in t.sessions {
        return Threw;
      }
      var s := t.sessions[u];
      if s.state == Done {
        return Returned(());
      }
      if s.state != Active || s.expiresAt <= now {
        return Threw;
      }
      r := CompleteFiles(u, s);
      if r.Returned? {
        ghost var before := t;
        r := Conclude(u);
        Onwards(old(t), before, t, {u});
        if r.Returned? {
          return;
        }
      }
      if r.Threw? {
        ghost var before := t;
        assert Sound(w, old(t)) && SessionOk(w, s, old(t).dedup);
        r := GiveUp(u, s);
        Onwards(old(t), before, t, {u});
      }
    }

    /** The end of `complete`'s try block: the session is read again, and marked. */
    method Conclude(u: UploadId) returns (r: Outcome<()>)
      requires Valid() && u in t.sessions && t.sessions[u].state == Active
      requires forall i :: 0 <= i < |t.sessions[u].files| ==> Resolved(t.sessions[u].files[i])
      modifies this
      ensures Valid() && Keeps(old(t), t) && Leaves(old(t), t, {u}) && t.dedup == old(t).dedup
      ensures r.Returned? ==> Restated(old(t), t, u, Done)
      ensures faults >= old(faults) && (faults == old(faults) ==> r.Returned?)
    {
      SelfLeaves(t, {u});
      var a := Wait();
      if a.Fine? {
        a := MarkState(u, Done);
      }
      return if a.Fine? then Returned(()) else Raised(a);
    }

    /** The catch block of `complete`: its own failures are swallowed or thrown on, never hidden effects. */
    method GiveUp(u: UploadId, s: Session) returns (r: Outcome<()>)
      requires Valid() && u in t.sessions && SameUploads(s, t.sessions[u]) && s.place == t.sessions[u].place
      modifies this
      ensures Valid() && Keeps(old(t), t) && Leaves(old(t), t, {u}) && !r.Returned?
      ensures faults >= old(faults)
      ensures faults == old(faults) ==>
        r.Threw? && CleanedUp(w, t, s)
          && (old(t).sessions[u].state == Active ==> t.sessions[u].state == Aborted)
    {
      var cleaned := CleanupSessionObjects(u, s);
      if !cleaned.Returned? {
        return cleaned;
      }
      ghost var before := t;
      var a := MarkState(u, Aborted);
      Onwards(old(t), before, t, {u});
      return if a.Dies? then Died else Threw;
    }

    /** When no await fails, an active session ends aborted and cleaned up; a completed one is left as it is. */
    method Abort(u: UploadId) returns (r: Outcome<()>)
      requires Valid()
      modifies this
      ensures Valid() && Keeps(old(t), t) && Leaves(old(t), t, {u})
      ensures r.Returned? ==> u in t.sessions && t.sessions[u].state != Active
      ensures faults >= old(faults)
      ensures faults == old(faults) && u in old(t).sessions ==>
        && (r.Returned? <==> Live(old(t).sessions[u]))
        && (old(t).sessions[u].state == Active ==>
            t.sessions[u].state == Aborted && CleanedUp(w, t, old(t).sessions[u]))
        && (old(t).sessions[u].state == Done ==> t == old(t))
    {
      SelfLeaves(t, {u});
      var a := Wait();
      if !a.Fine? {
        return Raised(a);
      }
      if u !in t.sessions {
        return Threw;
      }
      if t.sessions[u].state == Done {
        return Returned(());
      }
      r := EndSession(u, Aborted);
    }

    /** Clean up after a session, then end it. */
    method EndSession(u: UploadId, state: SessionState) returns (r: Outcome<()>)
      requires Valid() && u in t.sessions && (state == Aborted || state == Expired)
      modifies this
      ensures Valid() && Keeps(old(t), t) && Leaves(old(t), t, {u})
      ensures r.Returned? ==> u in t.sessions && t.sessions[u].state == state
      ensures Ended(old(t), t, u, state)
      ensures faults >= old(faults)
      ensures faults == old(faults) ==>
        CleanedUp(w, t, old(t).sessions[u]) && !r.Died? && (r.Returned? <==> old(t).sessions[u].state == Active)
    {
      var cleaned := CleanupSessionObjects(u, t.sessions[u]);
      if !cleaned.Returned? {
        return cleaned;
      }
      ghost var before := t;
      var a := MarkState(u, state);
      Onwards(old(t), before, t, {u});
      return if a.Fine? then Returned(()) else Raised(a);
    }

    /**
     Every expired active session in turn; the first failure ends the sweep.  Whatever fails, no other
     session is touched: not its row, not its open uploads and, while it is live, not its objects.
     When nothing fails, the overdue sessions end expired and clean, and the answer is their number.
     */
    method CleanupExpired(now: int) returns (r: Outcome<nat>)
      requires Valid()
      modifies this
      ensures Valid() && Keeps(old(t), t) && Leaves(old(t), t, OverdueIn(old(t), now))
      ensures forall v :: v in old(t).sessions && !Overdue(old(t).sessions[v], now) ==> LeftAlone(old(t), t, v)
      ensures forall v :: v in old(t).sessions && Overdue(old(t).sessions[v], now) ==>
        v in t.sessions && t.sessions[v] in {old(t).sessions[v], old(t).sessions[v].(state := Expired)}
      ensures faults >= old(faults)
      ensures faults == old(faults) ==>
        && r == Returned(|OverdueIn(old(t), now)|)
        && forall u :: u in old(t).sessions && Overdue(old(t).sessions[u], now) ==>
          t.sessions[u].state == Expired && CleanedUp(w, t, old(t).sessions[u])
    {
      assert Sound(w, t);
      r := Sweep(now);
      SweepIsNarrow(w, old(t), t, now);
    }

    method Sweep(now: int) returns (r: Outcome<nat>)
      requires Valid()
      modifies this
      ensures Valid() && Keeps(old(t), t) && Leaves(old(t), t, OverdueIn(old(t), now))
      ensures EndedOrKept(old(t), t, OverdueIn(old(t), now))
      ensures faults >= old(faults)
      ensures faults == old(faults) ==>
        r == Returned(|OverdueIn(old(t), now)|) && Swept(w, old(t), t, now, {})
    {
      ghost var all := OverdueIn(t, now);
      SelfLeaves(t, all);
      var a := Wait();
      if !a.Fine? {
        return Raised(a);
      }
      var expired: set<UploadId> :=
        set u | u in t.sessions && t.sessions[u].state == Active && t.sessions[u].expiresAt <= now;
      assert expired == all;
      var count := 0;
      while expired != {}
        invariant Valid() && Sweeping(old(t), t, all, expired) && count + |expired| == |all|
        invariant faults >= old(faults)
        invariant faults == old(faults) ==> Swept(w, old(t), t, now, expired)
        decreases |expired|
      {
        var u :| u in expired;
        var ended := SweepNext(old(t), all, expired, u, now);
        if !ended.Returned? {
          return if ended.Threw? then Threw else Died;
        }
        expired := expired - {u};
        count := count + 1;
      }
      return Returned(count);
    }

    /** One turn of the sweep. */
    method SweepNext(ghost start: Tables, ghost all: set<UploadId>, ghost expired: set<UploadId>, u: UploadId,
                     ghost now: int)
      returns (r: Outcome<()>)
      requires Valid() && u in expired && Sweeping(start, t, all, expired)
      modifies this
      ensures Valid() && Sweeping(start, t, all, expired - {u})
      ensures faults >= old(faults)
      ensures faults == old(faults) && Swept(w, start, old(t), now, expired) ==>
        r.Returned? && Swept(w, start, t, now, expired - {u})
    {
      r := EndSession(u, Expired);
      SweepOnwards(start, old(t), t, all, expired, u);
      if faults == old(faults) && Swept(w, start, old(t), now, expired) {
        SweptStep(w, start, old(t), t, now, expired, u);
      }
    }

    // ----- Starting ------------------------------------------------------------------------------

    /** A row of a new session: the dedup entry, or an upload that nobody else has. */
    method PlanFile(place: Place, i: nat) returns (a: Await, f: FileRow)
      requires Valid()
      modifies this
      ensures Valid() && Keeps(old(t), t) && OnlyOpens(old(t), t)
      ensures a.Fine? ==> RowPlanned(w, place, i, f, t)
      ensures a.Fine? ==> t.open == if f.multipart.Some? then old(t).open + {f.multipart.value} else old(t).open
      ensures a.Fine? && f.multipart.Some? ==> f.multipart.value >= old(t).next
      ensures faults == old(faults) + if a.Fine? then 0 else 1
    {
      var c := w.contents(place, i);
      f := FileRow(Deduplicated, Key(place, i), None, None, map[]);
      a := Wait();
      if !a.Fine? {
        return;
      }
      if c in t.dedup {
        return a, f.(key := t.dedup[c]);
      }
      assert Sound(w, t);
      NextIsNobodys(w, t);
      var m;
      a, m := CreateMultipart(Key(place, i));
      return a, FileRow(UploadRequired, Key(place, i), Some(Key(place, i)), Some(m), map[]);
    }

    /** The rows of a new session: a dedup entry where there is one, else a multipart upload. */
    method PlanFiles(place: Place) returns (r: Outcome<seq<FileRow>>, created: seq<MultipartId>)
      requires Valid()
      modifies this
      ensures Valid() && Keeps(old(t), t) && OnlyOpens(old(t), t)
      ensures r.Returned? ==> |r.value| == FileCount && PlannedOk(w, place, r.value, t)
      ensures forall m :: m in created ==> m >= old(t).next
      ensures r.Returned? ==> forall i :: 0 <= i < |r.value| && r.value[i].multipart.Some? ==>
        r.value[i].multipart.value in created
      ensures faults >= old(faults) && (faults == old(faults) ==> r.Returned?)
      ensures faults == old(faults) ==> forall m :: m in t.open ==> m in old(t).open || m in created
    {
      var files: seq<FileRow> := [];
      created := [];
      for i := 0 to FileCount
        invariant |files| == i && Valid() && Keeps(old(t), t) && OnlyOpens(old(t), t)
        invariant PlannedOk(w, place, files, t)
        invariant forall m :: m in created ==> m >= old(t).next
        invariant forall k :: 0 <= k < |files| && files[k].multipart.Some? ==> files[k].multipart.value in created
        invariant forall m :: m in t.open ==> m in old(t).open || m in created
        invariant faults == old(faults)
      {
        ghost var before := t;
        var a, f := PlanFile(place, i);
        KeepsTransitive(old(t), before, t);
        if !a.Fine? {
          return Raised(a), created;
        }
        StaysPlanned(w, place, files, before, t);
        files := files + [f];
        if f.multipart.Some? {
          created := created + [f.multipart.value];
        }
      }
      return Returned(files), created;
    }

    /** createSession's batch: refused while another session of the manifest is live. */
    method CreateSession(u: UploadId, s: Session) returns (a: Await)
      requires Valid() && s.state == Active && |s.files| == FileCount && PlannedOk(w, s.place, s.files, t)
      modifies this
      ensures Valid() && Keeps(old(t), t)
      ensures t == old(t) || (t == NewSession(old(t), u, s) && u !in old(t).sessions)
      ensures a.Fine? ==> t == NewSession(old(t), u, s) && u !in old(t).sessions
      ensures faults == old(faults) && !a.Fine? ==> t == old(t)
      ensures faults >= old(faults)
      ensures faults == old(faults) ==> !a.Dies? && (a.Fine? <==> Creatable(old(t).sessions, u, s.place))
    {
      a := Wait();
      if u in t.sessions || exists v :: v in t.sessions && Live(t.sessions[v]) && t.sessions[v].place == s.place {
        return if a.Fine? then Throws(false) else a;
      }
      if Took(a) {
        assert Sound(w, t);
        PlannedIsCreatable(w, t, s);
        CreatedKeeps(w, t, u, s);
        t := NewSession(t, u, s);
      }
    }

    method AbortAll(created: seq<MultipartId>) returns (died: bool)
      requires Valid()
      modifies this
      ensures Valid() && Keeps(old(t), t) && t == old(t).(open := t.open)
      ensures t.open <= old(t).open && forall m :: m in old(t).open && m !in created ==> m in t.open
      ensures faults >= old(faults)
      ensures faults == old(faults) ==> !died && forall m :: m in created ==> m !in t.open
    {
      var i := 0;
      while i < |created|
        invariant 0 <= i <= |created|
        invariant Valid() && Keeps(old(t), t) && t == old(t).(open := t.open)
        invariant t.open <= old(t).open && forall m :: m in old(t).open && m !in created ==> m in t.open
        invariant faults >= old(faults)
        invariant faults == old(faults) ==> forall j :: 0 <= j < i ==> created[j] !in t.open
      {
        ghost var before := t;
        var a := AbortMultipart(created[i]);
        KeepsTransitive(old(t), before, t);
        if a.Dies? {
          return true;
        }
        i := i + 1;
      }
      return false;
    }

    /** A planned session goes in and, when all its files are known, is completed at once. */
    method Enter(u: UploadId, s: Session) returns (a: Await)
      requires Valid() && s.state == Active && |s.files| == FileCount && PlannedOk(w, s.place, s.files, t)
      modifies this
      ensures Valid() && Keeps(old(t), t) && Leaves(old(t), t, {})
      ensures t == old(t).(sessions := t.sessions, order := t.order)
      ensures a.Fine? ==>
        && u in t.sessions && u !in old(t).sessions && t.order == old(t).order + [u]
        && t.sessions[u] == s.(state := if forall i :: 0 <= i < |s.files| ==> s.files[i].state == Deduplicated
            then Done else Active)
      ensures faults >= old(faults)
      ensures faults == old(faults) ==>
        !a.Dies? && (a.Fine? <==> Creatable(old(t).sessions, u, s.place)) && (a.Fine? || t == old(t))
    {
      a := CreateSession(u, s);
      if a.Fine? && forall i :: 0 <= i < |s.files| ==> s.files[i].state == Deduplicated {
        ghost var before := t;
        a := MarkState(u, Done);
        KeepsTransitive(old(t), before, t);
      }
      AddsLeave(old(t), t);
    }

    /**
     `start`: the live session of the manifest, or a new one; all files known means completed at once.
     When no await fails, a manifest without a live session gets one, and asking again gets it back as
     long as it is the latest.
     */
    method Start(u: UploadId, place: Place, now: int) returns (r: Outcome<UploadId>)
      requires Valid()
      modifies this
      ensures Valid() && Keeps(old(t), t) && Leaves(old(t), t, {})
      ensures r.Returned? ==> r.value in t.sessions && t.sessions[r.value].place == place && Live(t.sessions[r.value])
      ensures r.Returned? ==>
        || (r.value in old(t).sessions && t == old(t))
        || (r.value == u && StartedAs(w, old(t), t, u, place, now))
      ensures faults >= old(faults)
      ensures faults == old(faults) && r.Threw? ==> t == old(t).(made := t.made, next := t.next)
      ensures faults == old(faults) && Creatable(old(t).sessions, u, place) ==>
        r == Returned(u) && (t.sessions[u].state == Done <==> AllKnown(w, old(t).dedup, place))
      ensures forall v :: faults == old(faults) && v in old(t).sessions && Current(old(t).sessions, v, place, now) ==>
        r == Returned(v) && t == old(t)
    {
      SelfLeaves(t, {});
      var a := Wait();
      if !a.Fine? {
        return Raised(a);
      }
      var v := FindSession(place);
      if v.Some? && Live(t.sessions[v.value]) {
        var s := t.sessions[v.value];
        return if s.state == Active && s.expiresAt <= now then Threw else Returned(v.value);
      }
      assert forall x :: x in t.sessions ==> !Current(t.sessions, x, place, now);
      r := Begin(u, place, now);
    }

    /** `findSessionByManifest`: a latest session, if there is any. */
    method FindSession(place: Place) returns (r: Option<UploadId>)
      ensures r.None? ==> forall x :: x in t.sessions ==> t.sessions[x].place != place
      ensures r.Some? ==>
        && r.value in t.sessions && t.sessions[r.value].place == place
        && forall x :: x in t.sessions && t.sessions[x].place == place ==>
          t.sessions[x].createdAt <= t.sessions[r.value].createdAt
    {
      var known := set v | v in t.sessions && t.sessions[v].place == place;
      if known == {} {
        assert forall x :: x in t.sessions && t.sessions[x].place == place ==> x in known;
        return None;
      }
      LatestExists(t.sessions, known);
      var v :| v in known && forall x :: x in known ==> t.sessions[x].createdAt <= t.sessions[v].createdAt;
      return Some(v);
    }

    /** The new session of `start`; when it cannot go in, its uploads are aborted. */
    method Begin(u: UploadId, place: Place, now: int) returns (r: Outcome<UploadId>)
      requires Valid()
      modifies this
      ensures Valid() && Keeps(old(t), t) && Leaves(old(t), t, {})
      ensures r.Returned? ==> r.value == u && StartedAs(w, old(t), t, u, place, now) && Live(t.sessions[u])
      ensures faults >= old(faults)
      ensures faults == old(faults) && r.Threw? ==> t == old(t).(made := t.made, next := t.next)
      ensures faults == old(faults) && Creatable(old(t).sessions, u, place) ==>
        r == Returned(u) && (t.sessions[u].state == Done <==> AllKnown(w, old(t).dedup, place))
    {
      assert Sound(w, t);
      OpenIsEarlier(w, t);
      var planned, created := PlanFiles(place);
      AddsLeave(old(t), t);
      var why := if planned.Returned? then Fine else if planned.Threw? then Throws(false) else Dies(false);
      if planned.Returned? {
        ghost var before := t;
        why := Enter(u, Session(place, Active, now, now + w.ttl, planned.value));
        Onwards(old(t), before, t, {});
        PlannedStates(w, place, planned.value, before);
        if why.Fine? {
          RowsStarted(w, old(t), before, t, place, planned.value, created);
          return Returned(u);
        }
      }
      if why.Dies? {
        return Died;
      }
      ghost var before := t;
      var died := AbortAll(created);
      KeepsTransitive(old(t), before, t);
      BeginLeaves(old(t), before, t, created);
      return if died then Died else Threw;
    }

    // ----- Parts ---------------------------------------------------------------------------------

    /** A part that breaks the protocol ends its session; both steps may fail unnoticed. */
    method AbandonPart(u: UploadId, m: MultipartId)
      requires Valid() && u in t.sessions && UploadOf(t, {u}, m)
      modifies this
      ensures Valid() && Keeps(old(t), t) && Leaves(old(t), t, {u}) && PartsKept(old(t), t, u)
      ensures faults >= old(faults)
      ensures faults == old(faults) ==>
        m !in t.open && (old(t).sessions[u].state == Active ==> t.sessions[u].state == Aborted)
    {
      SelfLeaves(t, {u});
      ClosedLeaves(t, m, {u});
      var a := AbortMultipart(m);
      if a.Dies? {
        return;
      }
      ghost var before := t;
      var _ := MarkState(u, Aborted);
      Onwards(old(t), before, t, {u});
    }

    /** `uploadPart`: a part number is recorded once; what is returned is what is recorded. */
    method UploadPart(u: UploadId, i: nat, number: nat, part: Part, expected: Option<nat>, now: int)
      returns (r: Outcome<Part>)
      requires Valid() && i < FileCount
      modifies this
      ensures Valid() && Keeps(old(t), t) && Leaves(old(t), t, {u})
      ensures r.Returned? ==>
        && u in t.sessions && i < |t.sessions[u].files|
        && number in t.sessions[u].files[i].parts && t.sessions[u].files[i].parts[number] == r.value
        && PartInBounds(number, r.value) && (expected.Some? ==> r.value.digest == expected.value)
      ensures PartsKept(old(t), t, u)
      ensures r.Returned? ==>
        && u in old(t).sessions && i < |old(t).sessions[u].files|
        && if number in old(t).sessions[u].files[i].parts then t == old(t)
          else t == WithPart(old(t), u, i, number, r.value)
      ensures faults >= old(faults)
      ensures faults == old(faults) && Uploadable(old(t), u, i, now) && 1 <= number <= MaxParts
              && number !in old(t).sessions[u].files[i].parts ==>
        (r.Returned? <==> 1 <= part.size <= MaxPartSize && (expected.Some? ==> part.digest == expected.value))
        && (if r.Returned? then r.value == part else r.Threw? && t.sessions[u].state == Aborted)
    {
      SelfLeaves(t, {u});
      if number < 1 || number > MaxParts {
        return Threw;
      }
      var a := Wait();
      if !a.Fine? {
        return Raised(a);
      }
      if u !in t.sessions || t.sessions[u].state == Aborted || t.sessions[u].state == Expired {
        return Threw;
      }
      FileHere(u, i);
      var s := t.sessions[u];
      var f := s.files[i];
      if (s.state == Active && s.expiresAt <= now) || f.state != UploadRequired || f.multipart.None? {
        return Threw;
      }
      if number in f.parts {
        return if expected.Some? && f.parts[number].digest != expected.value then Threw else Returned(f.parts[number]);
      }
      r := SendPart(u, f.multipart.value, part, expected);
      if !r.Returned? {
        return;
      }
      ghost var before := t;
      r := RecordPart(u, i, number, part);
      Onwards(old(t), before, t, {u});
    }

    /** The encrypted part goes to the bucket and its statistics are checked; a broken part ends the session. */
    method SendPart(u: UploadId, m: MultipartId, part: Part, expected: Option<nat>) returns (r: Outcome<Part>)
      requires Valid() && u in t.sessions && UploadOf(t, {u}, m)
      modifies this
      ensures Valid() && Keeps(old(t), t) && Leaves(old(t), t, {u}) && PartsKept(old(t), t, u)
      ensures r.Returned? ==>
        t == old(t) && m in t.open && 1 <= part.size <= MaxPartSize
          && (expected.Some? ==> part.digest == expected.value)
      ensures faults >= old(faults)
      ensures faults == old(faults) && m in old(t).open ==>
        (r.Returned? <==> 1 <= part.size <= MaxPartSize && (expected.Some? ==> part.digest == expected.value))
        && (!r.Returned? ==> r.Threw? && (old(t).sessions[u].state == Active ==> t.sessions[u].state == Aborted))
    {
      SelfLeaves(t, {u});
      var a := Wait();
      if a.Dies? {
        return Died;
      }
      var broken := part.size < 1 || part.size > MaxPartSize || (expected.Some? && part.digest != expected.value);
      if a.Throws? || m !in t.open {
        var protocolError: bool := *;
        if protocolError {
          AbandonPart(u, m);
        }
        return Threw;
      }
      if broken {
        AbandonPart(u, m);
        return Threw;
      }
      return Returned(part);
    }

    /** recordPart: INSERT OR IGNORE of a part that is not there yet. */
    method RecordPart(u: UploadId, i: nat, number: nat, part: Part) returns (r: Outcome<Part>)
      requires Valid() && u in t.sessions && i < |t.sessions[u].files| && PartInBounds(number, part)
      requires t.sessions[u].state == Active && Uploading(t.sessions[u].files[i], t.open)
      requires number !in t.sessions[u].files[i].parts
      modifies this
      ensures Valid() && Keeps(old(t), t) && Leaves(old(t), t, {u}) && PartsKept(old(t), t, u)
      ensures t == old(t) || t == WithPart(old(t), u, i, number, part)
      ensures r.Returned? ==> r.value == part && t == WithPart(old(t), u, i, number, part)
      ensures faults == old(faults) + if r.Returned? then 0 else 1
    {
      var s := t.sessions[u];
      var f := s.files[i];
      assert Sound(w, t) && SessionOk(w, s, t.dedup);
      assert UploadOk(s, i, t.made, t.bucket);
      SelfLeaves(t, {u});
      ReplacedLeaves(t, u, WithFile(s, i, f.(parts := f.parts[number := part])));
      var a := Wait();
      if Took(a) {
        PartKeeps(w, t, u, i, f.parts[number := part]);
        t := WithSession(t, u, WithFile(s, i, f.(parts := f.parts[number := part])));
      }
      return if a.Fine? then Returned(part) else Raised(a);
    }

    // ----- Whole runs ----------------------------------------------------------------------------

    method Handle(call: Call)
      requires Valid()
      modifies this
      ensures Valid() && Keeps(old(t), t)
    {
      match call
      case StartCall(u, place, now) => var _ := Start(u, place, now);
      case PartCall(u, file, number, part, expected, now) =>
        if file < FileCount { var _ := UploadPart(u, file, number, part, expected, now); }
      case CompleteCall(u, now) => var _ := Complete(u, now);
      case AbortCall(u) => var _ := Abort(u);
      case CleanupCall(now) => var _ := CleanupExpired(now);
    }

    /**
     Any calls, failing or stopping anywhere: dedup entries point at verified objects and keep them,
     and the five files of every completed session are at such objects for good.
     */
    method AnyRun(calls: seq<Call>)
      requires Valid()
      modifies this
      ensures Valid() && Keeps(old(t), t)
      ensures forall c :: c in t.dedup ==> t.dedup[c] in t.bucket && w.verifies(t.bucket[t.dedup[c]], c)
      ensures forall u, i :: u in t.sessions && t.sessions[u].state == Done && 0 <= i < FileCount ==>
        FileThere(w, t, u, i)
    {
      for i := 0 to |calls|
        invariant Valid() && Keeps(old(t), t)
      {
        ghost var before := t;
        Handle(calls[i]);
        KeepsTransitive(old(t), before, t);
      }
      assert Sound(w, t);
      forall u, i | u in t.sessions && t.sessions[u].state == Done && 0 <= i < FileCount ensures FileThere(w, t, u, i) {
        CompletedResolves(w, t, u, i);
      }
    }
  }

  /** File i of the session is at an object verified as its content. */
  ghost predicate FileThere(w: World, t: Tables, u: UploadId, i: nat) {
    && u in t.sessions && i < |t.sessions[u].files| && t.sessions[u].files[i].key in t.bucket
    && w.verifies(t.bucket[t.sessions[u].files[i].key], w.contents(t.sessions[u].place, i))
  }

  lemma OwnKey(w: World, t: Tables, u: UploadId, i: nat)
    requires Sound(w, t) && u in t.sessions && i < |t.sessions[u].files|
    ensures var f := t.sessions[u].files[i];
      f.created.Some? ==> f.created.value == Key(t.sessions[u].place, i)
  {
    assert SessionOk(w, t.sessions[u], t.dedup);
    assert FileOk(w, t.sessions[u].place, i, t.sessions[u].files[i], t.dedup);
  }

  /** A file that is still to be uploaded has its own key, which no entry points at while its upload is open. */
  lemma OwnUploadIsMine(w: World, t: Tables, u: UploadId, i: nat)
    requires Sound(w, t) && u in t.sessions && t.sessions[u].state == Active && i < |t.sessions[u].files|
    requires t.sessions[u].files[i].state == UploadRequired && t.sessions[u].files[i].multipart.Some?
    ensures var f, k := t.sessions[u].files[i], Key(t.sessions[u].place, i);
      && f.key == k && f.multipart.value in t.made && t.made[f.multipart.value] == k
      && (f.multipart.value in t.open ==> !Targeted(w, k, t.dedup))
      && UploadOf(t, {u}, f.multipart.value) && CreatedBy(t, {u}, k)
  {
    OwnKey(w, t, u, i);
    assert FileOk(w, t.sessions[u].place, i, t.sessions[u].files[i], t.dedup);
    assert UploadOk(t.sessions[u], i, t.made, t.bucket);
    assert NoOverwrite(w, t.sessions[u], t.dedup, t.open);
    IsMine(t, u, i);
  }

  /** A planned row is a dedup entry's, or an upload of its own to a key no entry points at. */
  ghost predicate PlannedOk(w: World, place: Place, files: seq<FileRow>, t: Tables) {
    forall i :: 0 <= i < |files| ==> RowPlanned(w, place, i, files[i], t)
  }

  ghost predicate RowPlanned(w: World, place: Place, i: nat, f: FileRow, t: Tables) {
    if w.contents(place, i) in t.dedup then f == FileRow(Deduplicated, t.dedup[w.contents(place, i)], None, None, map[])
    else
      && f.multipart.Some? && f == FileRow(UploadRequired, Key(place, i), Some(Key(place, i)), f.multipart, map[])
      && f.multipart.value in t.made && t.made[f.multipart.value] == Key(place, i) && f.multipart.value in t.open
      && OwnUpload(t.sessions, f)
  }

  /** A row of a new session: the dedup entry of a known content, else a new open upload for its own key. */
  ghost predicate RowStarted(w: World, t: Tables, t': Tables, place: Place, i: nat, f: FileRow) {
    var c := w.contents(place, i);
    if c in t.dedup then f == FileRow(Deduplicated, t.dedup[c], None, None, map[])
    else
      && f.multipart.Some? && f == FileRow(UploadRequired, Key(place, i), Some(Key(place, i)), f.multipart, map[])
      && var m := f.multipart.value;
      && m !in t.open && m in t'.open && m in t'.made && t'.made[m] == Key(place, i)
  }

  /** The session of a manifest as `start` puts it in: last of all, for its whole time, with its rows. */
  ghost predicate StartedAs(w: World, t: Tables, t': Tables, u: UploadId, place: Place, now: int) {
    && u !in t.sessions && u in t'.sessions && t'.order == t.order + [u]
    && var s := t'.sessions[u];
    && s.place == place && s.createdAt == now && s.expiresAt == now + w.ttl && |s.files| == FileCount
    && forall i :: 0 <= i < |s.files| ==> RowStarted(w, t, t', place, i, s.files[i])
  }

  lemma RowsStarted(w: World, start: Tables, t: Tables, t': Tables, place: Place, files: seq<FileRow>,
                    created: seq<MultipartId>)
    requires OnlyOpens(start, t) && PlannedOk(w, place, files, t) && t'.open == t.open && t'.made == t.made
    requires (forall m :: m in start.open ==> m < start.next) && forall m :: m in created ==> m >= start.next
    requires forall i :: 0 <= i < |files| && files[i].multipart.Some? ==> files[i].multipart.value in created
    ensures forall i :: 0 <= i < |files| ==> RowStarted(w, start, t', place, i, files[i])
  {
    forall i | 0 <= i < |files| ensures RowStarted(w, start, t', place, i, files[i]) {
      assert RowPlanned(w, place, i, files[i], t);
    }
  }

  lemma OpenIsEarlier(w: World, t: Tables)
    requires Sound(w, t)
    ensures forall m :: m in t.open ==> m < t.next
  {
  }

  /** Aborting the uploads made since the start leaves the earlier ones open. */
  lemma BeginLeaves(start: Tables, t: Tables, t': Tables, created: seq<MultipartId>)
    requires Leaves(start, t, {}) && t' == t.(open := t'.open)
    requires forall m :: m in t.open && m !in created ==> m in t'.open
    requires (forall m :: m in start.open ==> m < start.next) && forall m :: m in created ==> m >= start.next
    ensures Leaves(start, t', {})
  {
    assert LeavesOthers(start, t, {});
    assert LeavesOthers(start, t', {});
  }

  lemma NextIsNobodys(w: World, t: Tables)
    requires Sound(w, t)
    ensures forall u, i: nat :: !Uploads(t.sessions, u, i, t.next)
  {
    forall u, i: nat ensures !Uploads(t.sessions, u, i, t.next) {
      if u in t.sessions && i < |t.sessions[u].files| { assert UploadOk(t.sessions[u], i, t.made, t.bucket); }
    }
  }

  lemma PlannedIsCreatable(w: World, t: Tables, s: Session)
    requires Sound(w, t) && s.state == Active && |s.files| == FileCount && PlannedOk(w, s.place, s.files, t)
    ensures SessionOk(w, s, t.dedup) && NoOverwrite(w, s, t.dedup, t.open)
    ensures forall i :: 0 <= i < |s.files| ==> UploadOk(s, i, t.made, t.bucket) && OwnUpload(t.sessions, s.files[i])
  {
    forall i | 0 <= i < |s.files|
      ensures FileOk(w, s.place, i, s.files[i], t.dedup) && UploadOk(s, i, t.made, t.bucket)
        && OwnUpload(t.sessions, s.files[i])
      ensures Uploading(s.files[i], t.open) ==> !Targeted(w, Key(s.place, i), t.dedup)
    {
      assert RowPlanned(w, s.place, i, s.files[i], t);
    }
  }

  lemma PlannedStates(w: World, place: Place, files: seq<FileRow>, t: Tables)
    requires |files| == FileCount && PlannedOk(w, place, files, t)
    ensures (forall i :: 0 <= i < |files| ==> files[i].state == Deduplicated) <==> AllKnown(w, t.dedup, place)
  {
    forall i | 0 <= i < |files| ensures files[i].state == Deduplicated <==> w.contents(place, i) in t.dedup {
      assert RowPlanned(w, place, i, files[i], t);
    }
    if AllKnown(w, t.dedup, place) {
      forall i | 0 <= i < |files| ensures files[i].state == Deduplicated { assert w.contents(place, i) in t.dedup; }
    }
  }

  predicate AllKnown(w: World, dedup: map<Content, Key>, place: Place) {
    forall i :: 0 <= i < FileCount ==> w.contents(place, i) in dedup
  }

  predicate Creatable(sessions: map<UploadId, Session>, u: UploadId, place: Place) {
    u !in sessions && forall v :: v in sessions && Live(sessions[v]) ==> sessions[v].place != place
  }

  /** The usable session of a place, created later than all others. */
  predicate Current(sessions: map<UploadId, Session>, v: UploadId, place: Place, now: int)
    requires v in sessions
  {
    && sessions[v].place == place && Live(sessions[v]) && !Overdue(sessions[v], now)
    && forall x :: x in sessions && sessions[x].place == place && x != v ==>
      sessions[x].createdAt < sessions[v].createdAt
  }

  lemma {:induction false} LatestExists(sessions: map<UploadId, Session>, some: set<UploadId>)
    requires some != {} && forall v :: v in some ==> v in sessions
    ensures exists v :: v in some && forall x :: x in some ==> sessions[x].createdAt <= sessions[v].createdAt
    decreases |some|
  {
    var u :| u in some;
    var rest := some - {u};
    if rest != {} {
      LatestExists(sessions, rest);
      var v :| v in rest && forall x :: x in rest ==> sessions[x].createdAt <= sessions[v].createdAt;
      var latest := if sessions[v].createdAt < sessions[u].createdAt then u else v;
      assert forall x :: x in some ==> x in rest || x == u;
      assert latest in some && forall x :: x in some ==> sessions[x].createdAt <= sessions[latest].createdAt;
    } else {
      assert some == {u};
    }
  }

  predicate InTime(s: Session, now: int) {
    s.state == Active && now < s.expiresAt
  }

  predicate Overdue(s: Session, now: int) {
    s.state == Active && s.expiresAt <= now
  }

  predicate Uploadable(t: Tables, u: UploadId, i: nat, now: int) {
    && u in t.sessions && InTime(t.sessions[u], now) && i < |t.sessions[u].files|
      && Uploading(t.sessions[u].files[i], t.open)
  }

  /** The upload of file i is open, laid out, and makes an object that verifies. */
  predicate CanComplete(w: World, t: Tables, s: Session, i: nat)
    requires i < |s.files|
  {
    var f, c := s.files[i], w.contents(s.place, i);
    && f.multipart.Some? && f.multipart.value in t.open && LaidOut(w, f.parts, w.sizes(c))
    && w.verifies(Body(f.multipart.value, f.parts), c)
  }

  predicate AllCanComplete(w: World, t: Tables, s: Session) {
    CanCompleteUpTo(w, t, s, |s.files|)
  }

  predicate CanCompleteUpTo(w: World, t: Tables, s: Session, n: nat) {
    forall i :: 0 <= i < n && i < |s.files| && s.files[i].state == UploadRequired ==> CanComplete(w, t, s, i)
  }

  predicate CompletesAt(w: World, t: Tables, s: Session, now: int) {
    s.state == Done || (InTime(s, now) && AllCanComplete(w, t, s))
  }

  /** Nothing of the session is left but what dedup entries point at. */
  ghost predicate CleanedUp(w: World, t: Tables, s: Session) {
    forall i :: 0 <= i < |s.files| ==>
      && (s.files[i].created.Some? && s.files[i].created.value in t.bucket ==>
          Targeted(w, s.files[i].created.value, t.dedup))
      && !Uploading(s.files[i], t.open)
  }

  ghost predicate OnlyRemoves(t: Tables, t': Tables) {
    t' == t.(bucket := t'.bucket, open := t'.open) && t'.bucket.Keys <= t.bucket.Keys && t'.open <= t.open
  }

  /** The file's row with one more part; nothing else is different. */
  ghost function WithPart(t: Tables, u: UploadId, i: nat, number: nat, part: Part): Tables
    requires u in t.sessions && i < |t.sessions[u].files|
  {
    var s := t.sessions[u];
    WithSession(t, u, WithFile(s, i, s.files[i].(parts := s.files[i].parts[number := part])))
  }

  /** Recorded parts of a session stay as recorded. */
  ghost predicate PartsKept(t: Tables, t': Tables, u: UploadId) {
    u in t.sessions ==>
      && u in t'.sessions && |t'.sessions[u].files| == |t.sessions[u].files|
      && forall i, n :: 0 <= i < |t.sessions[u].files| && n in t.sessions[u].files[i].parts ==>
           n in t'.sessions[u].files[i].parts && t'.sessions[u].files[i].parts[n] == t.sessions[u].files[i].parts[n]
  }

  ghost predicate Restated(t: Tables, t': Tables, u: UploadId, state: SessionState) {
    u in t.sessions && t.sessions[u].state == Active && t' == WithSession(t, u, t.sessions[u].(state := state))
  }

  ghost predicate Ended(t: Tables, t': Tables, u: UploadId, state: SessionState) {
    && t' == t.(sessions := t'.sessions, bucket := t'.bucket, open := t'.open)
    && t'.bucket.Keys <= t.bucket.Keys && t'.open <= t.open
    && u in t.sessions
    && (t'.sessions == t.sessions
        || (t.sessions[u].state == Active && t'.sessions == t.sessions[u := t.sessions[u].(state := state)]))
  }

  ghost predicate OnlyCloses(t: Tables, t': Tables) {
    t' == t.(open := t'.open) && t'.open <= t.open
  }

  /** A file whose upload is closed and whose object is listed, if no dedup entry points at it. */
  ghost predicate FileListed(w: World, t: Tables, f: FileRow, keys: seq<Key>) {
    !Uploading(f, t.open) && (f.created.Some? ==> f.created.value in keys || Targeted(w, f.created.value, t.dedup))
  }

  ghost predicate OnlyOpens(t: Tables, t': Tables) {
    && t' == t.(open := t'.open, made := t'.made, next := t'.next) && t.open <= t'.open && t.next <= t'.next
    && forall m :: m in t.made ==> m in t'.made && t'.made[m] == t.made[m]
  }

  lemma StaysPlanned(w: World, place: Place, files: seq<FileRow>, t: Tables, t': Tables)
    requires PlannedOk(w, place, files, t) && OnlyOpens(t, t')
    ensures PlannedOk(w, place, files, t')
  {
  }

  /** Of the expired sessions these are still to be ended. */
  ghost predicate StillActive(t: Tables, t': Tables, expired: set<UploadId>) {
    forall u :: u in expired ==>
      u in t.sessions && u in t'.sessions && t'.sessions[u] == t.sessions[u] && t.sessions[u].state == Active
  }

  /**
   Only this content may get an entry, and only one for this key.  Once the file is done there is an
   entry, the old one if there was one, and this key holds an object exactly if the entry is for it.
   */
  ghost predicate Settled(w: World, t: Tables, t': Tables, k: Key, done: bool) {
    var c := ContentAt(w, k);
    && (t'.dedup == t.dedup || (c !in t.dedup && t'.dedup == t.dedup[c := k]))
    && (done ==> c in t'.dedup && (k in t'.bucket <==> t'.dedup[c] == k))
  }

  ghost function OverdueIn(t: Tables, now: int): set<UploadId> {
    set u | u in t.sessions && Overdue(t.sessions[u], now)
  }

  /** Each of these sessions is as it was, or expired and otherwise as it was. */
  ghost predicate EndedOrKept(t: Tables, t': Tables, all: set<UploadId>) {
    forall u :: u in all && u in t.sessions ==>
      u in t'.sessions && (t'.sessions[u] == t.sessions[u] || t'.sessions[u] == t.sessions[u].(state := Expired))
  }

  lemma SweptRows(start: Tables, t: Tables, t': Tables, all: set<UploadId>, expired: set<UploadId>, u: UploadId)
    requires EndedOrKept(start, t, all) && StillActive(start, t, expired) && u in expired && Ended(t, t', u, Expired)
    ensures EndedOrKept(start, t', all) && StillActive(start, t', expired - {u})
  {
  }

  /** A sweep of these sessions on its way, with some of them still to be ended. */
  ghost predicate Sweeping(start: Tables, t: Tables, all: set<UploadId>, expired: set<UploadId>) {
    && expired <= all <= start.sessions.Keys
    && Keeps(start, t) && Leaves(start, t, all) && EndedOrKept(start, t, all) && StillActive(start, t, expired)
  }

  lemma SweepOnwards(start: Tables, t: Tables, t': Tables, all: set<UploadId>, expired: set<UploadId>, u: UploadId)
    requires Sweeping(start, t, all, expired) && Keeps(t, t') && Leaves(t, t', {u}) && u in expired
    requires Ended(t, t', u, Expired)
    ensures Sweeping(start, t', all, expired - {u})
  {
    LeavesMore(t, t', {u}, all);
    Onwards(start, t, t', all);
    SweptRows(start, t, t', all, expired, u);
  }

  lemma SweepIsNarrow(w: World, t: Tables, t': Tables, now: int)
    requires Sound(w, t) && Leaves(t, t', OverdueIn(t, now))
    ensures forall v :: v in t.sessions && !Overdue(t.sessions[v], now) ==> LeftAlone(t, t', v)
  {
    forall v | v in t.sessions && !Overdue(t.sessions[v], now) ensures LeftAlone(t, t', v) {
      OthersLeftAlone(w, t, t', OverdueIn(t, now), v);
    }
  }

  ghost predicate Swept(w: World, t: Tables, t': Tables, now: int, expired: set<UploadId>) {
    forall u :: u in t.sessions && Overdue(t.sessions[u], now) && u !in expired ==>
      u in t'.sessions && t'.sessions[u].state == Expired && CleanedUp(w, t', t.sessions[u])
  }

  lemma StaysClean(w: World, t: Tables, t': Tables, s: Session)
    requires CleanedUp(w, t, s) && t'.dedup == t.dedup && t'.bucket.Keys <= t.bucket.Keys && t'.open <= t.open
    ensures CleanedUp(w, t', s)
  {
    forall i | 0 <= i < |s.files|
      ensures !Uploading(s.files[i], t'.open)
      ensures s.files[i].created.Some? && s.files[i].created.value in t'.bucket ==>
        Targeted(w, s.files[i].created.value, t'.dedup)
    {
      assert !Uploading(s.files[i], t.open);
    }
  }

  lemma SweptStep(w: World, start: Tables, t: Tables, t': Tables, now: int, expired: set<UploadId>, u: UploadId)
    requires Swept(w, start, t, now, expired) && StillActive(start, t, expired) && u in expired
    requires Ended(t, t', u, Expired) && t'.sessions[u].state == Expired && CleanedUp(w, t', t.sessions[u])
    ensures Swept(w, start, t', now, expired - {u})
  {
    forall v | v in start.sessions && Overdue(start.sessions[v], now) && v !in expired - {u}
      ensures v in t'.sessions && t'.sessions[v].state == Expired && CleanedUp(w, t', start.sessions[v])
    {
      if v != u { StaysClean(w, t, t', start.sessions[v]); }
    }
  }

  /** The loop of `complete` before file i: those before it are resolved, the others are as they were. */
  ghost predicate Halfway(start: Tables, t: Tables, u: UploadId, s: Session, i: nat) {
    && u in t.sessions && t.sessions[u].state == Active && |t.sessions[u].files| == |s.files|
      && t.sessions[u].place == s.place
    && (forall k :: 0 <= k < i && k < |s.files| ==> Resolved(t.sessions[u].files[k]))
    && forall k :: i <= k < |s.files| ==> Untouched(start, t, t.sessions[u].files[k], s.files[k])
  }

  ghost predicate Untouched(start: Tables, t: Tables, f: FileRow, was: FileRow) {
    f == was && (was.multipart.Some? ==> (was.multipart.value in t.open <==> was.multipart.value in start.open))
  }

  lemma SameToComplete(w: World, start: Tables, t: Tables, u: UploadId, s: Session, i: nat)
    requires Halfway(start, t, u, s, i) && i < |s.files|
    ensures CanComplete(w, t, t.sessions[u], i) <==> CanComplete(w, start, s, i)
    ensures t.sessions[u].files[i] == s.files[i]
  {
  }

  lemma HalfwayStep(w: World, start: Tables, t: Tables, t': Tables, u: UploadId, s: Session, i: nat)
    requires Sound(w, t) && Halfway(start, t, u, s, i) && i < |s.files| && OnlyFile(t, t', u, i)
    ensures u in t'.sessions && t'.sessions[u].state == Active && |t'.sessions[u].files| == |s.files|
    ensures Resolved(t'.sessions[u].files[i]) ==> Halfway(start, t', u, s, i + 1)
  {
    OthersStayOpen(w, t, t', u, i);
    forall k | i < k < |s.files| ensures Untouched(start, t', t'.sessions[u].files[k], s.files[k]) {
      assert Untouched(start, t, t.sessions[u].files[k], s.files[k]);
    }
    forall k | 0 <= k < i ensures Resolved(t'.sessions[u].files[k]) {
      assert Resolved(t.sessions[u].files[k]);
    }
  }

  /** Of the sessions only this file of this session has changed, and only to completed; of the uploads only its own. */
  ghost predicate OnlyFile(t: Tables, t': Tables, u: UploadId, i: nat) {
    && u in t.sessions && i < |t.sessions[u].files|
    && (t'.sessions == t.sessions
        || exists ref :: t'.sessions
             == t.sessions[u := WithFile(t.sessions[u], i, t.sessions[u].files[i].(state := Completed, key := ref))])
    && t'.open <= t.open
    && forall m :: m in t.open && m !in t'.open ==> t.sessions[u].files[i].multipart == Some(m)
  }

  /** Completing one file leaves the uploads of the others as they are. */
  lemma OthersStayOpen(w: World, t: Tables, t': Tables, u: UploadId, i: nat)
    requires Sound(w, t) && OnlyFile(t, t', u, i)
    ensures forall k :: 0 <= k < |t.sessions[u].files| && k != i && t.sessions[u].files[k].multipart.Some? ==>
      (t.sessions[u].files[k].multipart.value in t'.open <==> t.sessions[u].files[k].multipart.value in t.open)
  {
    forall k | 0 <= k < |t.sessions[u].files| && k != i && t.sessions[u].files[k].multipart.Some?
      ensures t.sessions[u].files[k].multipart != t.sessions[u].files[i].multipart
    {
      assert UploadOk(t.sessions[u], k, t.made, t.bucket) && UploadOk(t.sessions[u], i, t.made, t.bucket);
    }
  }
}
