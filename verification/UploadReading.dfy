/**
 Reading a completed session back: `getCompletedSession` finds the encryption metadata and parts to
 decrypt each object with (cloudflare/worker/src/upload-store.ts:138-175).  A row of a shared object
 takes them from the first row, in the order rows were inserted, that names the object's key.  That row
 need not be the one that uploaded the object: the lemmas say exactly when it is.
 */
module UploadReading {
  import opened Common
  import opened UploadTables

  /** object_key = k AND encryption_json IS NOT NULL */
  predicate Names(f: FileRow, k: Key) {
    f.key == k && f.multipart.Some?
  }

  datatype Row = Row(upload: UploadId, file: nat)

  /** The first of a session's files, from the given one on, that names the key. */
  function FirstFile(files: seq<FileRow>, k: Key, i: nat): (r: Option<nat>)
    decreases |files| - i
    ensures r.Some? ==>
      && i <= r.value < |files| && Names(files[r.value], k)
      && forall j :: i <= j < r.value ==> !Names(files[j], k)
    ensures r.None? ==> forall j :: i <= j < |files| ==> !Names(files[j], k)
  {
    if i >= |files| then None
    else if Names(files[i], k) then Some(i)
    else FirstFile(files, k, i + 1)
  }

  /** ORDER BY rowid LIMIT 1 */
  function FirstRow(t: Tables, k: Key, p: nat): (r: Option<Row>)
    requires forall u :: u in t.order ==> u in t.sessions
    decreases |t.order| - p
    ensures r.Some? ==> r.value.upload in t.order && IsRow(t, r.value) && Names(RowAt(t, r.value), k)
  {
    if p >= |t.order| then None
    else
      var i := FirstFile(t.sessions[t.order[p]].files, k, 0);
      if i.Some? then Some(Row(t.order[p], i.value)) else FirstRow(t, k, p + 1)
  }

  predicate IsRow(t: Tables, r: Row) {
    r.upload in t.sessions && r.file < |t.sessions[r.upload].files|
  }

  function RowAt(t: Tables, r: Row): FileRow
    requires IsRow(t, r)
  {
    t.sessions[r.upload].files[r.file]
  }

  /** Row q was inserted before row r. */
  predicate Earlier(order: seq<UploadId>, q: Row, r: Row) {
    || (q.upload == r.upload && q.file < r.file)
    || exists a, b :: 0 <= a < b < |order| && order[a] == q.upload && order[b] == r.upload
  }

  /** The object that the reader is told to expect behind a row: an upload's metadata, and its parts. */
  function Expected(w: World, t: Tables, s: Session, i: nat): Option<Body>
    requires i < |s.files| && forall u :: u in t.order ==> u in t.sessions
  {
    var f := s.files[i];
    if f.multipart.Some? && f.parts != map[] then Some(Body(f.multipart.value, f.parts))
    else
      var r := FirstRow(t, f.key, 0);
      if r.None? then None
      else
        var owner := RowAt(t, r.value);
        if w.contents(t.sessions[r.value.upload].place, r.value.file) != w.contents(s.place, i) || owner.parts == map[]
          then None
        else Some(Body(owner.multipart.value, owner.parts))
  }

  /** The reader is told the metadata and the parts of the object that is there. */
  predicate Readable(w: World, t: Tables, s: Session, i: nat)
    requires i < |s.files| && forall u :: u in t.order ==> u in t.sessions
  {
    s.files[i].key in t.bucket && Expected(w, t, s, i) == Some(t.bucket[s.files[i].key])
  }

  /** `getCompletedSession`: all files or nothing. */
  method GetCompletedSession(w: World, t: Tables, u: UploadId) returns (r: Option<seq<Body>>)
    requires forall v :: v in t.order ==> v in t.sessions
    ensures r.Some? <==>
      && u in t.sessions && t.sessions[u].state == Done
      && forall i :: 0 <= i < |t.sessions[u].files| ==> Expected(w, t, t.sessions[u], i).Some?
    ensures r.Some? ==>
      && |r.value| == |t.sessions[u].files|
      && forall i :: 0 <= i < |r.value| ==> Some(r.value[i]) == Expected(w, t, t.sessions[u], i)
  {
    if u !in t.sessions || t.sessions[u].state != Done {
      return None;
    }
    var s := t.sessions[u];
    var files: seq<Body> := [];
    for i := 0 to |s.files|
      invariant |files| == i
      invariant forall j :: 0 <= j < i ==> Some(files[j]) == Expected(w, t, s, j)
    {
      var file := s.files[i];
      ghost var expected := Expected(w, t, s, i);
      if file.multipart.Some? && file.parts != map[] {
        files := files + [Body(file.multipart.value, file.parts)];
      } else {
        var found := FirstRow(t, file.key, 0);
        if found.None? || w.contents(t.sessions[found.value.upload].place, found.value.file) != w.contents(s.place, i) {
          return None;
        }
        var owner := RowAt(t, found.value);
        if owner.parts == map[] {
          return None;
        }
        files := files + [Body(owner.multipart.value, owner.parts)];
      }
    }
    return Some(files);
  }

  // ----- Which files are readable ----------------------------------------------------------------

  /** A file that the session uploaded itself can be read exactly if the session kept its own object. */
  lemma UploadedReadable(w: World, t: Tables, u: UploadId, i: nat)
    requires Sound(w, t) && u in t.sessions && t.sessions[u].state == Done && i < FileCount
    ensures |t.sessions[u].files| == FileCount
    ensures t.sessions[u].files[i].state == Completed ==>
      (Readable(w, t, t.sessions[u], i) <==> t.sessions[u].files[i].key == Key(t.sessions[u].place, i))
  {
    assert SessionOk(w, t.sessions[u], t.dedup);
    assert UploadOk(t.sessions[u], i, t.made, t.bucket);
    CompletedResolves(w, t, u, i);
  }

  /**
   A deduplicated file can be read exactly if no row before the one that uploaded the object names its
   key: neither an earlier attempt at that upload, nor a row that lost a race to it.
   */
  lemma DeduplicatedReadable(w: World, t: Tables, u: UploadId, i: nat, home: Row)
    requires Sound(w, t) && u in t.sessions && t.sessions[u].state == Done && i < |t.sessions[u].files|
    requires t.sessions[u].files[i].state == Deduplicated
    requires IsHome(t.sessions, t.bucket, t.sessions[u].files[i].key, home.upload, home.file)
    ensures Readable(w, t, t.sessions[u], i)
      <==> forall r :: IsRow(t, r) && Earlier(t.order, r, home) ==> !Names(RowAt(t, r), t.sessions[u].files[i].key)
  {
    var k := t.sessions[u].files[i].key;
    CompletedResolves(w, t, u, i);
    assert UploadOk(t.sessions[u], i, t.made, t.bucket);
    FirstRowIsFirst(t, k, home);
    var first := FirstRow(t, k, 0).value;
    if first == home {
      NamesContent(w, t, u, i, home);
    } else {
      DifferentUploads(w, t, k, first, home);
    }
  }

  /** Every dedup entry has a row that uploaded its object, so the lemma above always applies. */
  lemma HasHome(w: World, t: Tables, u: UploadId, i: nat) returns (home: Row)
    requires Sound(w, t) && u in t.sessions && t.sessions[u].state == Done && i < |t.sessions[u].files|
    ensures IsHome(t.sessions, t.bucket, t.sessions[u].files[i].key, home.upload, home.file)
  {
    assert SessionOk(w, t.sessions[u], t.dedup);
    assert FileOk(w, t.sessions[u].place, i, t.sessions[u].files[i], t.dedup);
    var c := w.contents(t.sessions[u].place, i);
    var v, j: nat :| IsHome(t.sessions, t.bucket, t.dedup[c], v, j);
    home := Row(v, j);
  }

  /** The query finds a row, and finds the given one unless an earlier one names the key. */
  lemma FirstRowIsFirst(t: Tables, k: Key, home: Row)
    requires OrderOk(t.sessions, t.order) && IsRow(t, home) && Names(RowAt(t, home), k)
    ensures FirstRow(t, k, 0).Some?
    ensures FirstRow(t, k, 0).value != home ==> Earlier(t.order, FirstRow(t, k, 0).value, home)
    ensures FirstRow(t, k, 0).value == home ==>
      forall r :: IsRow(t, r) && Earlier(t.order, r, home) ==> !Names(RowAt(t, r), k)
  {
    var h :| 0 <= h < |t.order| && t.order[h] == home.upload;
    FirstRowFrom(t, k, home, 0, h);
    var first := FirstRow(t, k, 0).value;
    if first == home {
      forall r | IsRow(t, r) && Earlier(t.order, r, home) ensures !Names(RowAt(t, r), k) {
        assert r.upload in t.order;
        if r.upload == home.upload {
          assert FirstFile(t.sessions[home.upload].files, k, 0) == Some(home.file);
        }
      }
    }
  }

  lemma {:induction false} FirstRowFrom(t: Tables, k: Key, home: Row, p: nat, h: nat)
    requires OrderOk(t.sessions, t.order) && IsRow(t, home) && Names(RowAt(t, home), k)
    requires p <= h < |t.order| && t.order[h] == home.upload
    ensures FirstRow(t, k, p).Some?
    ensures var first := FirstRow(t, k, p).value;
      && FirstFile(t.sessions[first.upload].files, k, 0) == Some(first.file)
      && exists a :: p <= a <= h && t.order[a] == first.upload
           && forall b :: p <= b < a ==> FirstFile(t.sessions[t.order[b]].files, k, 0).None?
    decreases h - p
  {
    var i := FirstFile(t.sessions[t.order[p]].files, k, 0);
    if i.None? {
      assert p < h;
      FirstRowFrom(t, k, home, p + 1, h);
    }
  }

  /** A row that names a dedup entry's key is for the entry's content. */
  lemma NamesContent(w: World, t: Tables, u: UploadId, i: nat, r: Row)
    requires Sound(w, t) && u in t.sessions && i < |t.sessions[u].files| && Resolved(t.sessions[u].files[i])
    requires IsRow(t, r) && Names(RowAt(t, r), t.sessions[u].files[i].key)
    ensures w.contents(t.sessions[r.upload].place, r.file) == w.contents(t.sessions[u].place, i)
  {
    assert SessionOk(w, t.sessions[u], t.dedup) && SessionOk(w, t.sessions[r.upload], t.dedup);
    assert FileOk(w, t.sessions[u].place, i, t.sessions[u].files[i], t.dedup);
    assert FileOk(w, t.sessions[r.upload].place, r.file, RowAt(t, r), t.dedup);
  }

  /** Only the home row has the object's upload. */
  lemma DifferentUploads(w: World, t: Tables, k: Key, r: Row, home: Row)
    requires Sound(w, t) && IsRow(t, r) && r != home && IsHome(t.sessions, t.bucket, k, home.upload, home.file)
    ensures RowAt(t, r).multipart != Some(t.bucket[k].from)
  {
    assert UploadOk(t.sessions[r.upload], r.file, t.made, t.bucket);
    assert UploadOk(t.sessions[home.upload], home.file, t.made, t.bucket);
    assert RowAt(t, r).multipart == Some(t.bucket[k].from) ==> Uploads(t.sessions, r.upload, r.file, t.bucket[k].from);
  }

  /** A session that kept its own objects can be read for good. */
  lemma OwnObjectsStayReadable(w: World, t: Tables, t': Tables, u: UploadId, i: nat)
    requires Sound(w, t) && Sound(w, t') && Keeps(t, t') && u in t.sessions && t.sessions[u].state == Done
      && i < FileCount
    requires i < |t.sessions[u].files| && t.sessions[u].files[i].key == Key(t.sessions[u].place, i)
    requires t.sessions[u].files[i].state == Completed
    ensures u in t'.sessions && i < |t'.sessions[u].files| && Readable(w, t', t'.sessions[u], i)
  {
    UploadedReadable(w, t', u, i);
  }

  /** A completed session's objects stay as they are. */
  lemma ObjectStays(w: World, t: Tables, t': Tables, u: UploadId, i: nat)
    requires Sound(w, t) && Keeps(t, t') && u in t.sessions && t.sessions[u].state == Done && i < |t.sessions[u].files|
    ensures u in t'.sessions && t'.sessions[u] == t.sessions[u]
    ensures var k := t.sessions[u].files[i].key; k in t.bucket && k in t'.bucket && t'.bucket[k] == t.bucket[k]
  {
    CompletedResolves(w, t, u, i);
    assert SessionOk(w, t.sessions[u], t.dedup) && FileOk(w, t.sessions[u].place, i, t.sessions[u].files[i], t.dedup);
  }

  /** The row that uploaded a shared object stays its uploader's, whatever happens. */
  lemma HomeStays(w: World, t: Tables, t': Tables, u: UploadId, i: nat, home: Row)
    requires Sound(w, t) && Sound(w, t') && Keeps(t, t')
    requires u in t.sessions && t.sessions[u].state == Done && i < |t.sessions[u].files|
    requires IsHome(t.sessions, t.bucket, t.sessions[u].files[i].key, home.upload, home.file)
    ensures u in t'.sessions && t'.sessions[u] == t.sessions[u]
    ensures IsHome(t'.sessions, t'.bucket, t.sessions[u].files[i].key, home.upload, home.file)
  {
    var k := t.sessions[u].files[i].key;
    ObjectStays(w, t, t', u, i);
    var home' := HasHome(w, t', u, i);
    OneHome(t, t', k, home, home');
  }

  /** An upload is one row's. */
  lemma OneHome(t: Tables, t': Tables, k: Key, home: Row, home': Row)
    requires IsHome(t.sessions, t.bucket, k, home.upload, home.file)
      && IsHome(t'.sessions, t'.bucket, k, home'.upload, home'.file)
    requires t'.bucket[k] == t.bucket[k] && Grows(t, t') && UploadsOk(t'.sessions, t'.made, t'.bucket)
      && OneOwner(t'.sessions)
    ensures home == home'
  {
    assert SameUploads(t.sessions[home.upload], t'.sessions[home.upload]);
    assert Uploads(t'.sessions, home.upload, home.file, t'.bucket[k].from);
    assert UploadOk(t'.sessions[home.upload], home.file, t'.made, t'.bucket);
    assert UploadOk(t'.sessions[home'.upload], home'.file, t'.made, t'.bucket);
  }

  /** Rows are inserted after those there are, so the rows before a row stay the same ones. */
  lemma EarlierStays(t: Tables, t': Tables, r: Row, home: Row)
    requires OrderOk(t.sessions, t.order) && OrderOk(t'.sessions, t'.order) && Grows(t, t') && IsRow(t, home)
    ensures IsRow(t, r) && Earlier(t.order, r, home) <==> IsRow(t', r) && Earlier(t'.order, r, home)
  {
    assert home.upload in t.order;
    var h :| 0 <= h < |t.order| && t.order[h] == home.upload;
    if b :| 0 <= b < |t'.order| && t'.order[b] == r.upload && b < h {
      assert t.order[b] == r.upload && SameUploads(t.sessions[r.upload], t'.sessions[r.upload]);
    }
    assert SameUploads(t.sessions[home.upload], t'.sessions[home.upload]);
  }

  /**
   Whether a deduplicated file can still be read later: exactly if none of the rows inserted before its
   uploader's has come to name the key.  Such a row can: it is one that loses a race to the object.
   */
  lemma DeduplicatedStaysReadable(w: World, t: Tables, t': Tables, u: UploadId, i: nat, home: Row)
    requires Sound(w, t) && Sound(w, t') && Keeps(t, t')
    requires u in t.sessions && t.sessions[u].state == Done && i < |t.sessions[u].files|
    requires t.sessions[u].files[i].state == Deduplicated
    requires IsHome(t.sessions, t.bucket, t.sessions[u].files[i].key, home.upload, home.file)
    ensures u in t'.sessions && t'.sessions[u] == t.sessions[u]
    ensures Readable(w, t', t'.sessions[u], i)
      <==> forall r :: IsRow(t, r) && Earlier(t.order, r, home) ==>
             IsRow(t', r) && !Names(RowAt(t', r), t.sessions[u].files[i].key)
  {
    HomeStays(w, t, t', u, i, home);
    DeduplicatedReadable(w, t', u, i, home);
    forall r ensures IsRow(t, r) && Earlier(t.order, r, home) <==> IsRow(t', r) && Earlier(t'.order, r, home) {
      EarlierStays(t, t', r, home);
    }
  }
}
