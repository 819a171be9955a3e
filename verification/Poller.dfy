/**
 `Poller.tick` over whole snapshots and whole runs (src/oraja_training/collect/poller.py:382-506).
 Reading the two source databases, the clock and the file system are parameters of a tick.
 */
module Poller {
  import opened Common
  import opened Collector

  /** scoredatalog has one row per chart. */
  ghost predicate OneRowPerChart(rows: seq<Row>) {
    forall i, j :: 0 <= i < j < |rows| ==> rows[i].chart != rows[j].chart
  }

  /** What `load_cursors` gives for a generation's table. */
  function CursorsOf(table: Table): map<Chart, Cursor> {
    map chart | chart in table && table[chart].cursor.Some? :: table[chart].cursor.value
  }

  ghost predicate TableOk(table: Table) {
    forall chart :: chart in table ==> ChartOk(table[chart])
  }

  function SumAdvance(cursors: map<Chart, Cursor>, rows: seq<Row>): nat {
    if rows == [] then 0
    else
      SumAdvance(cursors, rows[..|rows| - 1])
      + Advance(LoadedCursor(cursors, rows[|rows| - 1].chart), rows[|rows| - 1])
  }

  /** No row is behind its chart's cursor: what `rollback` rules out. */
  ghost predicate NoRollback(cursors: map<Chart, Cursor>, rows: seq<Row>) {
    forall i :: 0 <= i < |rows| && rows[i].chart in cursors ==> cursors[rows[i].chart].playcount <= rows[i].playcount
  }

  ghost predicate NotIn(chart: Chart, rows: seq<Row>) {
    forall i :: 0 <= i < |rows| ==> rows[i].chart != chart
  }

  /** The loop leaves a chart without a row alone. */
  lemma {:induction false} OtherChart(p: Progress, cursors: map<Chart, Cursor>, rows: seq<Row>, chart: Chart)
    requires NotIn(chart, rows)
    ensures FileOf(RowSteps(p, cursors, rows).table, chart) == FileOf(p.table, chart)
    ensures chart in RowSteps(p, cursors, rows).table <==> chart in p.table
    decreases |rows|
  {
    if rows != [] { OtherChart(p, cursors, rows[..|rows| - 1], chart); }
  }

  /** It changes a chart with a row exactly by that row. */
  lemma {:induction false} RowChart(p: Progress, cursors: map<Chart, Cursor>, rows: seq<Row>, i: nat)
    requires i < |rows| && OneRowPerChart(rows)
    ensures FileOf(RowSteps(p, cursors, rows).table, rows[i].chart)
            == RowFile(FileOf(p.table, rows[i].chart), LoadedCursor(cursors, rows[i].chart), rows[i])
    decreases |rows|
  {
    var n := |rows| - 1;
    if i < n {
      RowChart(p, cursors, rows[..n], i);
    } else {
      OtherChart(p, cursors, rows[..n], rows[i].chart);
    }
  }

  /** The play rows that the table holds for these charts. */
  function PlayRows(table: Table, rows: seq<Row>): nat {
    if rows == [] then 0
    else PlayRows(table, rows[..|rows| - 1]) + |FileOf(table, rows[|rows| - 1].chart).plays|
  }

  /** ... and the losses that those rows account for. */
  function LostPlays(table: Table, rows: seq<Row>): nat {
    if rows == [] then 0
    else LostPlays(table, rows[..|rows| - 1]) + SumLost(FileOf(table, rows[|rows| - 1].chart).plays)
  }

  lemma {:induction false} SameCharts(a: Table, b: Table, rows: seq<Row>)
    requires forall i :: 0 <= i < |rows| ==> FileOf(a, rows[i].chart) == FileOf(b, rows[i].chart)
    ensures PlayRows(a, rows) == PlayRows(b, rows) && LostPlays(a, rows) == LostPlays(b, rows)
    decreases |rows|
  {
    if rows != [] { SameCharts(a, b, rows[..|rows| - 1]); }
  }

  lemma EarlierCharts(table: Table, cursors: map<Chart, Cursor>, rows: seq<Row>)
    requires rows != [] && OneRowPerChart(rows)
    ensures var earlier := rows[..|rows| - 1];
      var t := RowSteps(Progress(table, 0, 0), cursors, earlier).table;
      var t' := RowSteps(Progress(table, 0, 0), cursors, rows).table;
      PlayRows(t', earlier) == PlayRows(t, earlier) && LostPlays(t', earlier) == LostPlays(t, earlier)
  {
    var earlier := rows[..|rows| - 1];
    SameCharts(RowSteps(Progress(table, 0, 0), cursors, earlier).table,
        RowSteps(Progress(table, 0, 0), cursors, rows).table, earlier);
  }

  /** The loop counts what it writes: new rows, and the losses they account for; both sum to the advances. */
  lemma {:induction false} LoopCounts(table: Table, cursors: map<Chart, Cursor>, rows: seq<Row>)
    requires TableOk(table) && cursors == CursorsOf(table) && OneRowPerChart(rows) && NoRollback(cursors, rows)
    ensures var p := RowSteps(Progress(table, 0, 0), cursors, rows);
      && p.newPlays == PlayRows(p.table, rows) - PlayRows(table, rows)
      && p.lost == LostPlays(p.table, rows) - LostPlays(table, rows)
      && p.newPlays + p.lost == SumAdvance(cursors, rows)
    decreases |rows|
  {
    if rows != [] {
      var n := |rows| - 1;
      LoopCounts(table, cursors, rows[..n]);
      OtherChart(Progress(table, 0, 0), cursors, rows[..n], rows[n].chart);
      FileIsOk(table, rows[n].chart);
      RowKeeps(FileOf(table, rows[n].chart), rows[n]);
      RowGrows(FileOf(table, rows[n].chart), rows[n]);
      EarlierCharts(table, cursors, rows);
    }
  }

  lemma FileIsOk(table: Table, chart: Chart)
    requires TableOk(table)
    ensures ChartOk(FileOf(table, chart)) && FileOf(table, chart).cursor == LoadedCursor(CursorsOf(table), chart)
  {
  }

  lemma RowChartKeeps(table: Table, cursors: map<Chart, Cursor>, rows: seq<Row>, i: nat)
    requires TableOk(table) && cursors == CursorsOf(table) && OneRowPerChart(rows) && NoRollback(cursors, rows)
      && i < |rows|
    ensures var f := FileOf(RowSteps(Progress(table, 0, 0), cursors, rows).table, rows[i].chart);
      ChartOk(f) && f.cursor == Some(Cursor(rows[i].playcount, rows[i].hash))
  {
    FileIsOk(table, rows[i].chart);
    RowChart(Progress(table, 0, 0), cursors, rows, i);
    RowKeeps(FileOf(table, rows[i].chart), rows[i]);
  }

  /** One chart after the loop. */
  lemma ChartAfterLoop(table: Table, cursors: map<Chart, Cursor>, rows: seq<Row>, chart: Chart)
    requires TableOk(table) && cursors == CursorsOf(table) && OneRowPerChart(rows) && NoRollback(cursors, rows)
    ensures var f := FileOf(RowSteps(Progress(table, 0, 0), cursors, rows).table, chart);
      && ChartOk(f)
      && (NotIn(chart, rows) ==> f == FileOf(table, chart))
      && (forall i :: 0 <= i < |rows| && rows[i].chart == chart ==>
          f.cursor == Some(Cursor(rows[i].playcount, rows[i].hash)))
  {
    if NotIn(chart, rows) {
      FileIsOk(table, chart);
      OtherChart(Progress(table, 0, 0), cursors, rows, chart);
    } else {
      var i :| 0 <= i < |rows| && rows[i].chart == chart;
      RowChartKeeps(table, cursors, rows, i);
    }
  }

  function SnapshotOf(rows: seq<Row>): map<Chart, Cursor> {
    if rows == [] then map[]
    else SnapshotOf(rows[..|rows| - 1])[rows[|rows| - 1].chart :=
        Cursor(rows[|rows| - 1].playcount, rows[|rows| - 1].hash)]
  }

  lemma {:induction false} SnapshotHas(rows: seq<Row>, chart: Chart)
    requires OneRowPerChart(rows)
    ensures chart in SnapshotOf(rows) <==> !NotIn(chart, rows)
    ensures forall i :: 0 <= i < |rows| && rows[i].chart == chart ==>
              chart in SnapshotOf(rows) && SnapshotOf(rows)[chart] == Cursor(rows[i].playcount, rows[i].hash)
    decreases |rows|
  {
    if rows != [] {
      SnapshotHas(rows[..|rows| - 1], chart);
      var n := |rows| - 1;
      assert NotIn(chart, rows) <==> NotIn(chart, rows[..n]) && rows[n].chart != chart;
    }
  }

  /** No chart has left the source. */
  ghost predicate NoneMissing(cursors: map<Chart, Cursor>, rows: seq<Row>) {
    forall chart :: chart in cursors ==> !NotIn(chart, rows)
  }

  /** After the loop the cursors are exactly the snapshot. */
  lemma CursorsAreSnapshot(table: Table, cursors: map<Chart, Cursor>, rows: seq<Row>)
    requires TableOk(table) && cursors == CursorsOf(table)
    requires OneRowPerChart(rows) && NoRollback(cursors, rows) && NoneMissing(cursors, rows)
    ensures var table' := RowSteps(Progress(table, 0, 0), cursors, rows).table;
      TableOk(table') && CursorsOf(table') == SnapshotOf(rows)
  {
    var table' := RowSteps(Progress(table, 0, 0), cursors, rows).table;
    forall chart | chart in table' ensures ChartOk(table'[chart]) {
      ChartAfterLoop(table, cursors, rows, chart);
    }
    forall chart
      ensures chart in CursorsOf(table') <==> chart in SnapshotOf(rows)
      ensures chart in SnapshotOf(rows) ==> CursorsOf(table')[chart] == SnapshotOf(rows)[chart]
    {
      ChartAfterLoop(table, cursors, rows, chart);
      SnapshotHas(rows, chart);
      FileIsOk(table, chart);
    }
  }

  // ----- Ticks ---------------------------------------------------------------------------------

  /** What `source_signature` sees; `rest` is everything but the main file's identity, times and sizes. */
  datatype Signature = Signature(identity: nat, mtime: Option<real>, size: nat, rest: nat)

  /** The collector_state row; of the signature it was written with it keeps only time and size. */
  datatype CollectorState = CollectorState(generation: nat, signature: Option<Signature>, failed: bool)

  datatype Store = Store(tables: map<nat, Table>, state: Option<CollectorState>)

  /** What one tick finds: the trigger, and the rows with their signature unless reading fails. */
  datatype Source = Source(trigger: Option<Signature>, rows: seq<Row>, stable: Option<Signature>)

  datatype TickResult = Scanned(newPlays: nat, lost: nat, generationChanged: bool) | Skipped | Failed

  function Generation(s: Store): nat {
    if s.state.None? then 0 else s.state.value.generation
  }

  function TableAt(s: Store, generation: nat): Table {
    if generation in s.tables then s.tables[generation] else map[]
  }

  /** Equal sizes, and times less than half a microsecond apart. */
  predicate SameSignal(a: Signature, b: Signature) {
    && a.mtime.Some? && b.mtime.Some? && a.size == b.size
    && var difference := a.mtime.value - b.mtime.value;
    && -0.0000005 < difference < 0.0000005
  }

  predicate SamePersisted(trigger: Signature, state: CollectorState) {
    state.signature.Some? && SameSignal(trigger, state.signature.value)
  }

  predicate Skips(s: Store, last: Option<Signature>, trigger: Signature, force: bool) {
    && !force
    && (|| last == Some(trigger)
        || (last.None? && s.state.Some? && !s.state.value.failed && SamePersisted(trigger, s.state.value)))
  }

  /** The three signs of a new source generation. */
  ghost predicate NewGeneration(s: Store, last: Option<Signature>, rows: seq<Row>, stable: Signature) {
    var cursors := CursorsOf(TableAt(s, Generation(s)));
    || (last.Some? && last.value.identity != stable.identity)
    || !NoneMissing(cursors, rows)
    || !NoRollback(cursors, rows)
  }

  /** The committed transaction of a full tick. */
  ghost function Scan(s: Store, rows: seq<Row>, stable: Signature, changed: bool): (Store, Progress) {
    var generation := if changed then Generation(s) + 1 else Generation(s);
    var cursors := if changed then map[] else CursorsOf(TableAt(s, generation));
    var p := RowSteps(Progress(TableAt(s, generation), 0, 0), cursors, rows);
    (Store(s.tables[generation := p.table], Some(CollectorState(generation, Some(stable), false))), p)
  }

  /** Every table is in order, and no generation is used before its time. */
  ghost predicate StoreOk(s: Store) {
    && (forall g :: g in s.tables ==> TableOk(s.tables[g]))
    && (forall g :: g > Generation(s) ==> TableAt(s, g) == map[])
  }

  lemma CommitKeeps(s: Store, state: CollectorState, table: Table)
    requires StoreOk(s) && TableOk(table)
    requires state.generation == Generation(s) || state.generation == Generation(s) + 1
    ensures var s' := Store(s.tables[state.generation := table], Some(state));
      && StoreOk(s') && TableAt(s', state.generation) == table
      && (forall g :: g != state.generation ==> TableAt(s', g) == TableAt(s, g))
  {
    var s' := Store(s.tables[state.generation := table], Some(state));
    forall g | g > Generation(s') ensures TableAt(s', g) == map[] {
      assert TableAt(s, g) == map[];
    }
  }

  lemma ErrorKeeps(s: Store, signature: Option<Signature>, last: Option<Signature>, content: Signature -> seq<Row>)
    requires StoreOk(s) && Settled(s, last, content)
    ensures var s' := Store(s.tables, Some(CollectorState(Generation(s), signature, true)));
      StoreOk(s') && Settled(s', last, content)
  {
    var s' := Store(s.tables, Some(CollectorState(Generation(s), signature, true)));
    forall g | g > Generation(s') ensures TableAt(s', g) == map[] {
      assert TableAt(s, g) == map[];
    }
    assert TableAt(s', Generation(s')) == TableAt(s, Generation(s));
  }

  /** The table a scan starts from: the current one, or a new and empty one. */
  lemma StartingTable(s: Store, generation: nat)
    requires StoreOk(s)
    ensures TableOk(TableAt(s, generation))
    ensures generation > Generation(s) ==> TableAt(s, generation) == map[] && CursorsOf(TableAt(s, generation)) == map[]
  {
  }

  /** A full tick: the generation's cursors become the snapshot, and every advance is accounted for. */
  lemma ScanKeeps(s: Store, last: Option<Signature>, rows: seq<Row>, stable: Signature)
    requires StoreOk(s) && OneRowPerChart(rows)
    ensures var changed := NewGeneration(s, last, rows, stable);
      var cursors := if changed then map[] else CursorsOf(TableAt(s, Generation(s)));
      var (s', p) := Scan(s, rows, stable, changed);
      && StoreOk(s')
      && CursorsOf(TableAt(s', Generation(s'))) == SnapshotOf(rows)
      && p.newPlays == PlayRows(TableAt(s', Generation(s')), rows) - PlayRows(TableAt(s, Generation(s')), rows)
      && p.lost == LostPlays(TableAt(s', Generation(s')), rows) - LostPlays(TableAt(s, Generation(s')), rows)
      && p.newPlays + p.lost == SumAdvance(cursors, rows)
      && (forall g :: g != Generation(s') ==> TableAt(s', g) == TableAt(s, g))
  {
    var changed := NewGeneration(s, last, rows, stable);
    var generation := if changed then Generation(s) + 1 else Generation(s);
    var table := TableAt(s, generation);
    StartingTable(s, generation);
    var cursors := CursorsOf(table);
    CursorsAreSnapshot(table, cursors, rows);
    LoopCounts(table, cursors, rows);
    CommitKeeps(s, CollectorState(generation, Some(stable), false),
        RowSteps(Progress(table, 0, 0), cursors, rows).table);
  }

  /** A snapshot already in the cursors is not counted, written or taken for a new generation again. */
  lemma RepeatedScan(s: Store, last: Option<Signature>, rows: seq<Row>, stable: Signature)
    requires StoreOk(s) && OneRowPerChart(rows) && CursorsOf(TableAt(s, Generation(s))) == SnapshotOf(rows)
    requires last.Some? ==> last.value.identity == stable.identity
    ensures !NewGeneration(s, last, rows, stable)
    ensures var (s', p) := Scan(s, rows, stable, false);
      p.newPlays == 0 && p.lost == 0 && p.table == TableAt(s, Generation(s))
  {
    var table := TableAt(s, Generation(s));
    var cursors := CursorsOf(table);
    forall chart ensures chart in cursors <==> !NotIn(chart, rows) { SnapshotHas(rows, chart); }
    forall i | 0 <= i < |rows|
      ensures rows[i].chart in cursors && cursors[rows[i].chart] == Cursor(rows[i].playcount, rows[i].hash)
    {
      SnapshotHas(rows, rows[i].chart);
    }
    NothingNew(Progress(table, 0, 0), cursors, rows);
  }

  lemma {:induction false} NothingNew(p: Progress, cursors: map<Chart, Cursor>, rows: seq<Row>)
    requires forall i :: 0 <= i < |rows| ==>
               rows[i].chart in cursors && cursors[rows[i].chart] == Cursor(rows[i].playcount, rows[i].hash)
    ensures RowSteps(p, cursors, rows) == p
    decreases |rows|
  {
    if rows != [] { NothingNew(p, cursors, rows[..|rows| - 1]); }
  }

  // ----- The collector object --------------------------------------------------------------------

  /** scoredatalog's primary key, at every signature. */
  ghost predicate Keyed(content: Signature -> seq<Row>) {
    forall a: Signature :: OneRowPerChart(content(a))
  }

  /** What a new process's skip rests on: the recorded time and size tell that the content is the recorded one. */
  ghost predicate SignalTells(s: Store, trigger: Signature, content: Signature -> seq<Row>) {
    s.state.Some? && SamePersisted(trigger, s.state.value) ==>
      content(trigger) == content(s.state.value.signature.value)
  }

  /** Whatever lets a tick skip stands for a snapshot that is in the cursors. */
  ghost predicate Settled(s: Store, last: Option<Signature>, content: Signature -> seq<Row>) {
    && (last.Some? ==> CursorsOf(TableAt(s, Generation(s))) == SnapshotOf(content(last.value)))
    && (s.state.Some? && !s.state.value.failed && s.state.value.signature.Some? ==>
          CursorsOf(TableAt(s, Generation(s))) == SnapshotOf(content(s.state.value.signature.value)))
  }

  /** `_same_persisted_signal` */
  method SamePersistedSignal(signature: Signature, last: Signature) returns (same: bool)
    ensures same <==> SameSignal(signature, last)
  {
    if last.mtime.None? || signature.mtime.None? {
      return false;
    }
    var distance := signature.mtime.value - last.mtime.value;
    if distance < 0.0 {
      distance := -distance;
    }
    return distance < 0.0000005 && signature.size == last.size;
  }

  class Poller {
    var db: Store
    var lastSignature: Option<Signature>

    constructor (db: Store)
      ensures this.db == db && lastSignature == None
    {
      this.db, lastSignature := db, None;
    }

    ghost predicate Valid(content: Signature -> seq<Row>)
      reads this
    {
      StoreOk(db) && Keyed(content) && Settled(db, lastSignature, content)
    }

    /** `_record_error`: the generation stays; the row no longer lets a tick skip. */
    method RecordError(signature: Option<Signature>, ghost content: Signature -> seq<Row>)
      requires Valid(content)
      modifies this`db
      ensures Valid(content)
      ensures db == Store(old(db).tables, Some(CollectorState(Generation(old(db)), signature, true)))
    {
      ErrorKeeps(db, signature, lastSignature, content);
      db := Store(db.tables, Some(CollectorState(Generation(db), signature, true)));
    }

    method FindChange(cursors: map<Chart, Cursor>, rows: seq<Row>, stable: Signature) returns (changed: bool)
      requires cursors == CursorsOf(TableAt(db, Generation(db)))
      ensures changed <==> NewGeneration(db, lastSignature, rows, stable)
    {
      var currentKeys := set i | 0 <= i < |rows| :: rows[i].chart;
      var replacement := lastSignature.Some? && lastSignature.value.identity != stable.identity;
      replacement := replacement || cursors.Keys - currentKeys != {};
      var rollback :=
        exists i :: 0 <= i < |rows| && rows[i].chart in cursors && rows[i].playcount < cursors[rows[i].chart].playcount;
      MissingKeys(cursors, rows, currentKeys);
      return replacement || rollback;
    }

    /** The trigger is this process's last one or, for a new process, the one recorded without an error. */
    method Unchanged(trigger: Signature, force: bool) returns (skips: bool)
      ensures skips <==> Skips(db, lastSignature, trigger, force)
    {
      if force {
        return false;
      }
      if lastSignature.Some? {
        return trigger == lastSignature.value;
      }
      if db.state.None? || db.state.value.failed || db.state.value.signature.None? {
        return false;
      }
      skips := SamePersistedSignal(trigger, db.state.value.signature.value);
    }

    /** The loop of one transaction. */
    method ScanRows(table: Table, cursors: map<Chart, Cursor>, rows: seq<Row>) returns (p: Progress)
      ensures p == RowSteps(Progress(table, 0, 0), cursors, rows)
    {
      p := Progress(table, 0, 0);
      var i := 0;
      while i < |rows|
        invariant 0 <= i <= |rows|
        invariant p == RowSteps(Progress(table, 0, 0), cursors, rows[..i])
      {
        assert rows[..i + 1][..i] == rows[..i];
        p := RowStep(p, cursors, rows[i]);
        i := i + 1;
      }
      assert rows[..i] == rows;
    }

    /**
     One tick up to its replays; a failure leaves plays and cursors as they were.  When collecting the
     replays fails after a scan, `RecordError` follows this.
     */
    method Tick(source: Source, force: bool, commits: bool, ghost content: Signature -> seq<Row>)
      returns (r: TickResult)
      requires Valid(content)
      requires source.stable.Some? ==> source.rows == content(source.stable.value)
      requires source.trigger.Some? && lastSignature.None? && !force ==> SignalTells(db, source.trigger.value, content)
      modifies this
      ensures Valid(content)
      ensures r.Skipped? <==> source.trigger.Some? && Skips(old(db), old(lastSignature), source.trigger.value, force)
      ensures r.Skipped? ==>
        && db == old(db) && lastSignature == source.trigger
        && SnapshotOf(content(source.trigger.value)) == CursorsOf(TableAt(db, Generation(db)))
      ensures r.Failed? ==>
        db.tables == old(db).tables && Generation(db) == Generation(old(db)) && lastSignature == old(lastSignature)
      ensures r.Scanned? ==>
        && source.stable.Some?
        && r.generationChanged == NewGeneration(old(db), old(lastSignature), source.rows, source.stable.value)
        && (var (s', p) := Scan(old(db), source.rows, source.stable.value, r.generationChanged);
            db == s' && r.newPlays == p.newPlays && r.lost == p.lost)
        && CursorsOf(TableAt(db, Generation(db))) == SnapshotOf(source.rows)
        && (var table, table' := TableAt(old(db), Generation(db)), TableAt(db, Generation(db));
            && r.newPlays == PlayRows(table', source.rows) - PlayRows(table, source.rows)
            && r.lost == LostPlays(table', source.rows) - LostPlays(table, source.rows))
        && (var known := if r.generationChanged then map[] else CursorsOf(TableAt(old(db), Generation(old(db))));
            r.newPlays + r.lost == SumAdvance(known, source.rows))
        && lastSignature == source.stable
    {
      if source.trigger.None? {
        RecordError(None, content);
        return Failed;
      }
      var skips := Unchanged(source.trigger.value, force);
      if skips {
        SkipIsSound(db, lastSignature, source.trigger.value, force, content);
        lastSignature := source.trigger;
        return Skipped;
      }
      if source.stable.None? {
        RecordError(source.trigger, content);
        return Failed;
      }
      var stable := source.stable.value;
      var generation := Generation(db);
      var cursors := CursorsOf(TableAt(db, generation));
      var changed := FindChange(cursors, source.rows, stable);
      if changed {
        generation := generation + 1;
        cursors := map[];
      }
      var p := ScanRows(TableAt(db, generation), cursors, source.rows);
      if !commits {
        RecordError(source.trigger, content);
        return Failed;
      }
      ScanKeeps(db, lastSignature, source.rows, stable);
      db := Store(db.tables[generation := p.table], Some(CollectorState(generation, Some(stable), false)));
      lastSignature := Some(stable);
      return Scanned(p.newPlays, p.lost, changed);
    }
  }

  lemma MissingKeys(cursors: map<Chart, Cursor>, rows: seq<Row>, currentKeys: set<Chart>)
    requires forall chart :: chart in currentKeys <==> !NotIn(chart, rows)
    ensures cursors.Keys - currentKeys == {} <==> NoneMissing(cursors, rows)
  {
    if cursors.Keys - currentKeys == {} {
      forall chart | chart in cursors ensures !NotIn(chart, rows) {
        assert chart !in cursors.Keys - currentKeys;
      }
    }
  }

  /** The signature skip loses nothing: the skipped content is what the cursors already say. */
  lemma SkipIsSound(s: Store, last: Option<Signature>, trigger: Signature, force: bool, content: Signature -> seq<Row>)
    requires Settled(s, last, content) && Skips(s, last, trigger, force)
    requires last.None? ==> SignalTells(s, trigger, content)
    ensures SnapshotOf(content(trigger)) == CursorsOf(TableAt(s, Generation(s)))
  {
  }

  // ----- Whole runs ----------------------------------------------------------------------------

  /** What happens to the collector: a full tick, one that skips or fails, or a new process. */
  datatype Event =
    | FullTick(rows: seq<Row>, stable: Signature)
    | SkippedTick(trigger: Signature)
    | FailedTick(signature: Option<Signature>)
    | Restart

  datatype Collection = Collection(store: Store, last: Option<Signature>)

  ghost function After(c: Collection, event: Event): Collection {
    match event
    case FullTick(rows, stable) =>
      Collection(Scan(c.store, rows, stable, NewGeneration(c.store, c.last, rows, stable)).0, Some(stable))
    case SkippedTick(trigger) => c.(last := Some(trigger))
    case FailedTick(signature) =>
      c.(store := Store(c.store.tables, Some(CollectorState(Generation(c.store), signature, true))))
    case Restart => c.(last := None)
  }

  ghost function AfterAll(c: Collection, events: seq<Event>): Collection
    decreases |events|
  {
    if events == [] then c else AfterAll(After(c, events[0]), events[1..])
  }

  /** An empty store, or one that `backfill` filled at generation 0. */
  function Backfilled(rows: seq<Row>, signature: Signature): Store {
    Store(map[0 := RowSteps(Progress(map[], 0, 0), map[], rows).table], Some(CollectorState(0, Some(signature), false)))
  }

  lemma BackfillIsOk(rows: seq<Row>, signature: Signature)
    requires OneRowPerChart(rows)
    ensures StoreOk(Backfilled(rows, signature)) && StoreOk(Store(map[], None))
    ensures CursorsOf(TableAt(Backfilled(rows, signature), 0)) == SnapshotOf(rows)
  {
    assert CursorsOf(map[]) == map[];
    CursorsAreSnapshot(map[], map[], rows);
  }

  lemma AfterKeeps(c: Collection, event: Event)
    requires StoreOk(c.store) && (event.FullTick? ==> OneRowPerChart(event.rows))
    ensures StoreOk(After(c, event).store)
  {
    match event
    case FullTick(rows, stable) => ScanKeeps(c.store, c.last, rows, stable);
    case FailedTick(signature) =>
      forall g | g > Generation(c.store) ensures TableAt(After(c, event).store, g) == map[] {
        assert TableAt(c.store, g) == map[];
      }
    case SkippedTick(_) =>
    case Restart =>
  }

  /** Conservation over every run, in every generation and for every chart; the cursor is the top play. */
  lemma {:induction false} RunsConserve(c: Collection, events: seq<Event>)
    requires StoreOk(c.store)
    requires forall k :: 0 <= k < |events| && events[k].FullTick? ==> OneRowPerChart(events[k].rows)
    ensures StoreOk(AfterAll(c, events).store)
    ensures forall g, chart :: g in AfterAll(c, events).store.tables && chart in AfterAll(c, events).store.tables[g] ==>
              Conserved(AfterAll(c, events).store.tables[g][chart])
              && CursorOnTop(AfterAll(c, events).store.tables[g][chart])
    decreases |events|
  {
    if events == [] {
      forall g, chart | g in c.store.tables && chart in c.store.tables[g]
        ensures Conserved(c.store.tables[g][chart]) && CursorOnTop(c.store.tables[g][chart])
      {
        CursorIsOnTop(c.store.tables[g][chart]);
        if c.store.tables[g][chart].plays != [] { PlaysAreConserved(c.store.tables[g][chart]); }
      }
    } else {
      AfterKeeps(c, events[0]);
      RunsConserve(After(c, events[0]), events[1..]);
    }
  }

  /** Play rows plus losses are the plays between the first one seen and the cursor, both included. */
  ghost predicate Conserved(f: ChartFile) {
    if f.plays == [] then f.cursor.None?
    else f.cursor.Some? && |f.plays| + SumLost(f.plays) == f.cursor.value.playcount - f.plays[0].playcount + 1
  }

  // ----- History -------------------------------------------------------------------------------

  /** Rows are added and payloads corrected; no row's playcount or losses ever change. */
  ghost predicate Extends(f: ChartFile, f': ChartFile) {
    && |f.plays| <= |f'.plays|
    && (forall i :: 0 <= i < |f.plays| ==>
          f'.plays[i].playcount == f.plays[i].playcount && f'.plays[i].lost == f.plays[i].lost)
  }

  lemma RowExtends(f: ChartFile, cursor: Option<Cursor>, row: Row)
    ensures Extends(f, RowFile(f, cursor, row))
  {
  }

  lemma LoopExtends(p: Progress, cursors: map<Chart, Cursor>, rows: seq<Row>, chart: Chart)
    requires OneRowPerChart(rows)
    ensures Extends(FileOf(p.table, chart), FileOf(RowSteps(p, cursors, rows).table, chart))
  {
    if NotIn(chart, rows) {
      OtherChart(p, cursors, rows, chart);
    } else {
      var i :| 0 <= i < |rows| && rows[i].chart == chart;
      RowChart(p, cursors, rows, i);
      RowExtends(FileOf(p.table, chart), LoadedCursor(cursors, chart), rows[i]);
    }
  }

  lemma ScanExtends(s: Store, last: Option<Signature>, rows: seq<Row>, stable: Signature, generation: nat, chart: Chart)
    requires StoreOk(s) && OneRowPerChart(rows)
    ensures Extends(FileOf(TableAt(s, generation), chart),
                    FileOf(TableAt(Scan(s, rows, stable, NewGeneration(s, last, rows, stable)).0, generation), chart))
  {
    var changed := NewGeneration(s, last, rows, stable);
    var current := if changed then Generation(s) + 1 else Generation(s);
    if generation == current {
      var cursors := if changed then map[] else CursorsOf(TableAt(s, current));
      LoopExtends(Progress(TableAt(s, current), 0, 0), cursors, rows, chart);
    }
  }
}
