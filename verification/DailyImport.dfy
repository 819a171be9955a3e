/** The whole import: player days, score journal, daily plays, and the idempotent result. */
module DailyImport {
  import opened Common
  import opened Collector
  import opened Daily

  // ----- scoredatalog rows ---------------------------------------------------------------------

  /** A chart at DAILY_GENERATION; `base` is history: where its cursor was taken over from. */
  datatype DailyFile = DailyFile(file: ChartFile, base: int)

  datatype Logs = Logs(table: map<Chart, DailyFile>, newRows: nat, lost: nat)

  function FileIn(table: map<Chart, DailyFile>, chart: Chart): ChartFile {
    if chart in table then table[chart].file else NoRows
  }

  function LostDaily(cursor: Option<Cursor>, playcount: int): nat {
    var from := if cursor.Some? then cursor.value.playcount else 0;
    if playcount - from - 1 < 0 then 0 else playcount - from - 1
  }

  predicate LogBackwards(cursor: Option<Cursor>, row: Row) {
    cursor.Some? && row.playcount < cursor.value.playcount
  }

  predicate DailyPlay(cursor: Option<Cursor>, baseline: bool, row: Row) {
    !baseline && ShouldInsert(cursor, row)
  }

  /** Where the accounting of a chart starts: at its baseline, else before its first play. */
  function BaseOf(baseline: bool, row: Row): int {
    if baseline then row.playcount else if row.playcount >= 1 then 0 else row.playcount - 1
  }

  function LogFile(f: ChartFile, cursor: Option<Cursor>, baseline: bool, row: Row): ChartFile {
    var f' := if DailyPlay(cursor, baseline, row)
              then InsertPlay(f, Play(row.playcount, row.hash, LostDaily(cursor, row.playcount))) else f;
    UpsertCursor(f', row.playcount, row.hash)
  }

  function LogStep(x: Logs, cursor: Option<Cursor>, baseline: bool, row: Row): Logs {
    var f := FileIn(x.table, row.chart);
    var counted := DailyPlay(cursor, baseline, row) && !HasPlay(f.plays, row.playcount);
    Logs(
      x.table[row.chart := DailyFile(LogFile(f, cursor, baseline, row),
                                     if row.chart in x.table then x.table[row.chart].base else BaseOf(baseline, row))],
      if counted then x.newRows + 1 else x.newRows,
      if counted then x.lost + LostDaily(cursor, row.playcount) else x.lost)
  }

  function LogSteps(x: Logs, baseline: bool, rows: seq<Row>): Option<Logs>
    decreases |rows|
  {
    if rows == [] then Some(x)
    else
      var before := LogSteps(x, baseline, rows[..|rows| - 1]);
      var row := rows[|rows| - 1];
      if before.None? || LogBackwards(FileIn(before.value.table, row.chart).cursor, row) then None
      else Some(LogStep(before.value, FileIn(before.value.table, row.chart).cursor, baseline, row))
  }

  /** Conservation: rows and losses are exactly the cursor's way from its base. */
  ghost predicate DailyOk(d: DailyFile) {
    && d.file.cursor.Some?
    && |d.file.plays| + SumLost(d.file.plays) == d.file.cursor.value.playcount - d.base
    && (forall i :: 0 <= i < |d.file.plays| ==> d.file.plays[i].playcount <= d.file.cursor.value.playcount)
  }

  ghost predicate LogsOk(table: map<Chart, DailyFile>) {
    forall chart :: chart in table ==> DailyOk(table[chart])
  }

  /** A row's chart: known with its base, or new with the one its row gives it. */
  ghost predicate ReadyFor(f: ChartFile, base: int, known: bool, baseline: bool, row: Row) {
    if known then DailyOk(DailyFile(f, base)) && !baseline else f == NoRows && base == BaseOf(baseline, row)
  }

  lemma NewPlayKeeps(f: ChartFile, base: int, known: bool, row: Row)
    requires ReadyFor(f, base, known, false, row) && ShouldInsert(f.cursor, row)
    ensures !HasPlay(f.plays, row.playcount)
    ensures var plays := f.plays + [Play(row.playcount, row.hash, LostDaily(f.cursor, row.playcount))];
      DailyOk(DailyFile(ChartFile(plays, Some(Cursor(row.playcount, row.hash))), base))
  {
    SumLostGrows(f.plays, Play(row.playcount, row.hash, LostDaily(f.cursor, row.playcount)));
  }

  lemma ChartKeeps(f: ChartFile, base: int, known: bool, baseline: bool, row: Row)
    requires ReadyFor(f, base, known, baseline, row) && !LogBackwards(f.cursor, row)
    ensures var f' := LogFile(f, f.cursor, baseline, row);
      DailyOk(DailyFile(f', base)) && f'.cursor == Some(Cursor(row.playcount, row.hash))
  {
    if DailyPlay(f.cursor, baseline, row) { NewPlayKeeps(f, base, known, row); }
  }

  /** What the step adds to its counts is what it adds to the chart's rows. */
  lemma LogStepCounts(x: Logs, cursor: Option<Cursor>, baseline: bool, row: Row)
    ensures var x' := LogStep(x, cursor, baseline, row);
      var plays, plays' := FileIn(x.table, row.chart).plays, x'.table[row.chart].file.plays;
      && x'.newRows - x.newRows == |plays'| - |plays| && x'.lost - x.lost == SumLost(plays') - SumLost(plays)
  {
    var f := FileIn(x.table, row.chart);
    SumLostGrows(f.plays, Play(row.playcount, row.hash, LostDaily(cursor, row.playcount)));
  }

  /** A row leaves its chart's cursor on itself, its rows accounted for, and every other chart alone. */
  lemma LogStepKeeps(x: Logs, baseline: bool, row: Row)
    requires LogsOk(x.table) && (baseline ==> row.chart !in x.table)
    requires !LogBackwards(FileIn(x.table, row.chart).cursor, row)
    ensures var x' := LogStep(x, FileIn(x.table, row.chart).cursor, baseline, row);
      && LogsOk(x'.table)
      && row.chart in x'.table && x'.table[row.chart].file.cursor == Some(Cursor(row.playcount, row.hash))
      && x'.table - {row.chart} == x.table - {row.chart}
  {
    var known := row.chart in x.table;
    var base := if known then x.table[row.chart].base else BaseOf(baseline, row);
    ChartKeeps(FileIn(x.table, row.chart), base, known, baseline, row);
  }

  /** The play rows of these charts. */
  function DailyRows(table: map<Chart, DailyFile>, rows: seq<Row>): nat {
    if rows == [] then 0
    else DailyRows(table, rows[..|rows| - 1]) + |FileIn(table, rows[|rows| - 1].chart).plays|
  }

  /** ... and the losses that they account for. */
  function DailyLost(table: map<Chart, DailyFile>, rows: seq<Row>): nat {
    if rows == [] then 0
    else DailyLost(table, rows[..|rows| - 1]) + SumLost(FileIn(table, rows[|rows| - 1].chart).plays)
  }

  lemma {:induction false} SameDaily(a: map<Chart, DailyFile>, b: map<Chart, DailyFile>, rows: seq<Row>)
    requires forall i :: 0 <= i < |rows| ==> FileIn(a, rows[i].chart) == FileIn(b, rows[i].chart)
    ensures DailyRows(a, rows) == DailyRows(b, rows) && DailyLost(a, rows) == DailyLost(b, rows)
    decreases |rows|
  {
    if rows != [] { SameDaily(a, b, rows[..|rows| - 1]); }
  }

  ghost predicate DistinctLogs(rows: seq<Row>) {
    forall i, j :: 0 <= i < j < |rows| ==> rows[i].chart != rows[j].chart
  }

  lemma {:induction false} OtherLog(x: Logs, baseline: bool, rows: seq<Row>, chart: Chart)
    requires forall i :: 0 <= i < |rows| ==> rows[i].chart != chart
    ensures var r := LogSteps(x, baseline, rows);
      r.Some? ==> (chart in r.value.table <==> chart in x.table)
                  && (chart in x.table ==> r.value.table[chart] == x.table[chart])
    decreases |rows|
  {
    if rows != [] { OtherLog(x, baseline, rows[..|rows| - 1], chart); }
  }

  /** Every row of the import is where its chart's cursor is afterwards. */
  lemma {:induction false} RowsAreCursors(x: Logs, baseline: bool, rows: seq<Row>, i: nat)
    requires DistinctLogs(rows) && i < |rows|
    ensures var r := LogSteps(x, baseline, rows);
      r.Some? ==> FileIn(r.value.table, rows[i].chart).cursor == Some(Cursor(rows[i].playcount, rows[i].hash))
    decreases |rows|
  {
    var n := |rows| - 1;
    if i < n { RowsAreCursors(x, baseline, rows[..n], i); }
  }

  lemma {:induction false} LogsKeep(x: Logs, baseline: bool, rows: seq<Row>)
    requires LogsOk(x.table) && DistinctLogs(rows) && (baseline ==> x.table == map[])
    ensures var r := LogSteps(x, baseline, rows); r.Some? ==> LogsOk(r.value.table)
    decreases |rows|
  {
    if rows != [] {
      var n := |rows| - 1;
      LogsKeep(x, baseline, rows[..n]);
      var before := LogSteps(x, baseline, rows[..n]);
      if before.Some? && !LogBackwards(FileIn(before.value.table, rows[n].chart).cursor, rows[n]) {
        OtherLog(x, baseline, rows[..n], rows[n].chart);
        LogStepKeeps(before.value, baseline, rows[n]);
      }
    }
  }

  /** The import's two counts: the rows it adds to its charts, and the losses that they account for. */
  lemma {:induction false} LogsCount(x: Logs, baseline: bool, rows: seq<Row>)
    requires DistinctLogs(rows)
    ensures var r := LogSteps(x, baseline, rows);
      r.Some? ==>
        && r.value.newRows - x.newRows == DailyRows(r.value.table, rows) - DailyRows(x.table, rows)
        && r.value.lost - x.lost == DailyLost(r.value.table, rows) - DailyLost(x.table, rows)
    decreases |rows|
  {
    if rows != [] && LogSteps(x, baseline, rows).Some? {
      var n := |rows| - 1;
      var before := LogSteps(x, baseline, rows[..n]).value;
      LogsCount(x, baseline, rows[..n]);
      OtherLog(x, baseline, rows[..n], rows[n].chart);
      LogStepCounts(before, FileIn(before.table, rows[n].chart).cursor, baseline, rows[n]);
      SameDaily(before.table, LogSteps(x, baseline, rows).value.table, rows[..n]);
    }
  }

  // ----- Player days ---------------------------------------------------------------------------

  datatype Totals = Totals(playcount: int, judged: int, emptyPoor: int, playtime: int)

  datatype PlayerRow = PlayerRow(date: int, totals: Totals)

  datatype PlayerDay = PlayerDay(totals: Totals, delta: Option<Totals>, importId: nat)

  function Difference(a: Totals, b: Totals): Totals {
    Totals(a.playcount - b.playcount, a.judged - b.judged, a.emptyPoor - b.emptyPoor, a.playtime - b.playtime)
  }

  predicate Negative(t: Totals) {
    t.playcount < 0 || t.judged < 0 || t.emptyPoor < 0 || t.playtime < 0
  }

  predicate TotalsBackwards(rows: seq<PlayerRow>) {
    exists i :: 0 < i < |rows| && Negative(Difference(rows[i].totals, rows[i - 1].totals))
  }

  function DayOf(rows: seq<PlayerRow>, i: nat, importId: nat): PlayerDay
    requires i < |rows|
  {
    PlayerDay(rows[i].totals, if i == 0 then None else Some(Difference(rows[i].totals, rows[i - 1].totals)), importId)
  }

  function DaysAfter(days: map<int, PlayerDay>, rows: seq<PlayerRow>, importId: nat): map<int, PlayerDay>
    decreases |rows|
  {
    if rows == [] then days
    else DaysAfter(days, rows[..|rows| - 1], importId)[rows[|rows| - 1].date := DayOf(rows, |rows| - 1, importId)]
  }

  /** Each date of the import holds its totals and the difference to the row before it. */
  lemma {:induction false} DayWritten(days: map<int, PlayerDay>, rows: seq<PlayerRow>, importId: nat, i: nat)
    requires i < |rows| && forall j, k :: 0 <= j < k < |rows| ==> rows[j].date != rows[k].date
    ensures rows[i].date in DaysAfter(days, rows, importId)
      && DaysAfter(days, rows, importId)[rows[i].date] == DayOf(rows, i, importId)
    decreases |rows|
  {
    var n := |rows| - 1;
    if i < n {
      DayWritten(days, rows[..n], importId, i);
      assert DayOf(rows[..n], i, importId) == DayOf(rows, i, importId);
    }
  }

  function AddTotals(a: Totals, b: Totals): Totals {
    Totals(a.playcount + b.playcount, a.judged + b.judged, a.emptyPoor + b.emptyPoor, a.playtime + b.playtime)
  }

  /** The deltas written for rows 1 to i, added up. */
  function SumDeltas(rows: seq<PlayerRow>, i: nat): Totals
    requires i < |rows|
  {
    if i == 0 then Totals(0, 0, 0, 0)
    else AddTotals(SumDeltas(rows, i - 1), Difference(rows[i].totals, rows[i - 1].totals))
  }

  /** Deltas telescope: first totals plus the deltas are the later totals. */
  lemma {:induction false} DeltasAddUp(rows: seq<PlayerRow>, i: nat)
    requires i < |rows|
    ensures AddTotals(rows[0].totals, SumDeltas(rows, i)) == rows[i].totals
  {
    if i > 0 { DeltasAddUp(rows, i - 1); }
  }

  /** The loop over player rows; None is the raise. */
  method ImportPlayers(days: map<int, PlayerDay>, rows: seq<PlayerRow>, importId: nat)
    returns (r: Option<map<int, PlayerDay>>)
    ensures r == if TotalsBackwards(rows) then None else Some(DaysAfter(days, rows, importId))
  {
    var table := days;
    var previous: Option<Totals> := None;
    var i := 0;
    while i < |rows|
      invariant 0 <= i <= |rows|
      invariant previous == if i == 0 then None else Some(rows[i - 1].totals)
      invariant forall k :: 0 < k < i ==> !Negative(Difference(rows[k].totals, rows[k - 1].totals))
      invariant table == DaysAfter(days, rows[..i], importId)
    {
      var delta := if previous.None? then None else Some(Difference(rows[i].totals, previous.value));
      if delta.Some? && Negative(delta.value) {
        return None;
      }
      table := table[rows[i].date := PlayerDay(rows[i].totals, delta, importId)];
      previous := Some(rows[i].totals);
      i := i + 1;
      assert rows[..i][..i - 1] == rows[..i - 1];
    }
    assert rows[..i] == rows;
    return Some(table);
  }

  // ----- The import ----------------------------------------------------------------------------

  datatype Pair = Pair(
    scoreHash: nat, logHash: nat,
    live: bool,                           // a sidecar exists
    unstable: bool,                       // a signature changed during the read
    players: seq<PlayerRow>, scores: seq<ScoreRow>, logs: seq<Row>)

  datatype Summary = Summary(importId: nat, date: int, judged: int, playcount: int, newRows: nat, lost: nat,
                             lampUpdates: nat)

  /** One row of daily_imports; `lampUpdates` is history, the column is not stored. */
  datatype ImportRow = ImportRow(scoreHash: nat, logHash: nat, date: int, judged: int, playcount: int,
                                 newRows: nat, lost: nat, lampUpdates: nat)

  datatype DailyStore = DailyStore(imports: seq<ImportRow>, days: map<int, PlayerDay>, scores: Scores,
                                   logs: map<Chart, DailyFile>)

  const Empty: DailyStore := DailyStore([], map[], Scores(map[], [], map[]), map[])

  datatype Result = Imported(summary: Summary, idempotent: bool) | Mismatch

  /** The import with these two hashes; UNIQUE(score_sha256, scoredatalog_sha256). */
  predicate IsPair(row: ImportRow, pair: Pair) {
    row.scoreHash == pair.scoreHash && row.logHash == pair.logHash
  }

  predicate Known(imports: seq<ImportRow>, pair: Pair) {
    exists i :: 0 <= i < |imports| && IsPair(imports[i], pair)
  }

  /** scoredatalog ahead of score.db for a chart. */
  predicate Incoherent(pair: Pair) {
    exists i, j :: 0 <= i < |pair.logs| && 0 <= j < |pair.scores|
                   && pair.logs[i].chart == pair.scores[j].chart && pair.logs[i].playcount > pair.scores[j].playcount
  }

  ghost predicate KeyedRows(pair: Pair) {
    && DistinctScores(pair.scores) && DistinctLogs(pair.logs)
    && (forall j, k :: 0 <= j < k < |pair.players| ==> pair.players[j].date != pair.players[k].date)
  }

  ghost predicate ImportsOk(imports: seq<ImportRow>, journal: seq<Change>) {
    && (forall i, j :: 0 <= i < j < |imports| ==>
          imports[i].scoreHash != imports[j].scoreHash || imports[i].logHash != imports[j].logHash)
    && (forall i :: 0 <= i < |imports| ==> imports[i].lampUpdates == LampUpdates(journal, i))
    && (forall k :: 0 <= k < |journal| ==> journal[k].importId < |imports|)
  }

  ghost predicate StoreOk(s: DailyStore) {
    && JournalOk(s.scores) && LogsOk(s.logs) && ImportsOk(s.imports, s.scores.journal)
    && (s.imports == [] ==> s.scores.state == map[] && s.logs == map[])
  }

  /** A new pair that nothing speaks against: read in one piece, coherent, and nothing in it moved backwards. */
  ghost predicate Acceptable(s: DailyStore, pair: Pair) {
    && !pair.unstable && pair.players != [] && !Incoherent(pair) && !TotalsBackwards(pair.players)
    && (s.imports != [] ==> forall i :: 0 <= i < |pair.scores| && pair.scores[i].chart in s.scores.state ==>
          s.scores.state[pair.scores[i].chart].playcount <= pair.scores[i].playcount)
    && (forall i :: 0 <= i < |pair.logs| && pair.logs[i].chart in s.logs ==>
          !LogBackwards(s.logs[pair.logs[i].chart].file.cursor, pair.logs[i]))
  }

  /** The loops raise exactly for a row that is behind what was stored before the import. */
  lemma {:induction false} ScoresRaise(x: Scores, baseline: bool, importId: nat, rows: seq<ScoreRow>)
    requires DistinctScores(rows)
    ensures ScoreSteps(x, baseline, importId, rows).None?
            <==> exists i :: 0 <= i < |rows| && ScoreBackwards(OldState(x.state, rows[i].chart), baseline, rows[i])
    decreases |rows|
  {
    if rows != [] {
      var n := |rows| - 1;
      ScoresRaise(x, baseline, importId, rows[..n]);
      OtherScore(x, baseline, importId, rows[..n], rows[n].chart);
    }
  }

  lemma {:induction false} LogsRaise(x: Logs, baseline: bool, rows: seq<Row>)
    requires DistinctLogs(rows)
    ensures LogSteps(x, baseline, rows).None?
            <==> exists i :: 0 <= i < |rows| && LogBackwards(FileIn(x.table, rows[i].chart).cursor, rows[i])
    decreases |rows|
  {
    if rows != [] {
      var n := |rows| - 1;
      LogsRaise(x, baseline, rows[..n]);
      OtherLog(x, baseline, rows[..n], rows[n].chart);
    }
  }

  lemma AcceptableExactly(s: DailyStore, pair: Pair)
    requires KeyedRows(pair)
    ensures Acceptable(s, pair) <==>
      && !pair.unstable && pair.players != [] && !Incoherent(pair) && !TotalsBackwards(pair.players)
      && ScoreSteps(s.scores, s.imports == [], |s.imports|, pair.scores).Some?
      && LogSteps(Logs(s.logs, 0, 0), s.imports == [], pair.logs).Some?
  {
    ScoresRaise(s.scores, s.imports == [], |s.imports|, pair.scores);
    LogsRaise(Logs(s.logs, 0, 0), s.imports == [], pair.logs);
  }

  /** The store after an import that is accepted, or as it was. */
  ghost function After(s: DailyStore, pair: Pair): (s': DailyStore)
    requires KeyedRows(pair)
    ensures if Accepted(s, pair) then Committed(s, pair, s') else s' == s
  {
    if !Accepted(s, pair) then s
    else
      AcceptableExactly(s, pair);
      var baseline, id := s.imports == [], |s.imports|;
      var scores, logs := ScoreSteps(s.scores, baseline, id, pair.scores).value,
        LogSteps(Logs(s.logs, 0, 0), baseline, pair.logs).value;
      DailyStore(s.imports + [RowOf(pair, logs, LampUpdates(scores.journal, id))],
                 DaysAfter(s.days, pair.players, id), scores, logs.table)
  }

  ghost predicate Accepted(s: DailyStore, pair: Pair) {
    !pair.live && !Known(s.imports, pair) && Acceptable(s, pair)
  }

  /** What a committed import does to the store. */
  ghost predicate Committed(s: DailyStore, pair: Pair, s': DailyStore) {
    var baseline, id := s.imports == [], |s.imports|;
    var scores, logs := ScoreSteps(s.scores, baseline, id, pair.scores),
      LogSteps(Logs(s.logs, 0, 0), baseline, pair.logs);
    && scores.Some? && logs.Some? && !TotalsBackwards(pair.players) && pair.players != [] && !Incoherent(pair)
    && s'.days == DaysAfter(s.days, pair.players, id)
    && s'.scores == scores.value
    && s'.logs == logs.value.table
    && s'.imports == s.imports + [RowOf(pair, logs.value, LampUpdates(scores.value.journal, id))]
  }

  function RowOf(pair: Pair, logs: Logs, lampUpdates: nat): ImportRow
    requires pair.players != []
  {
    var latest := pair.players[|pair.players| - 1];
    ImportRow(pair.scoreHash, pair.logHash, latest.date, latest.totals.judged, latest.totals.playcount,
              logs.newRows, logs.lost, lampUpdates)
  }

  function SummaryOf(row: ImportRow, id: nat, lampUpdates: nat): Summary {
    Summary(id, row.date, row.judged, row.playcount, row.newRows, row.lost, lampUpdates)
  }

  lemma CommitKeeps(s: DailyStore, pair: Pair, s': DailyStore)
    requires StoreOk(s) && KeyedRows(pair) && Committed(s, pair, s') && !Known(s.imports, pair)
    ensures StoreOk(s')
  {
    var baseline, id := s.imports == [], |s.imports|;
    ScoresKeep(s.scores, baseline, id, pair.scores);
    ScoresAppend(s.scores, baseline, id, pair.scores);
    LogsKeep(Logs(s.logs, 0, 0), baseline, pair.logs);
    ImportsGrow(s.imports, s.scores.journal, s'.scores.journal, pair, s'.imports[id]);
  }

  lemma RowsAreStored(s: DailyStore, pair: Pair, s': DailyStore)
    requires KeyedRows(pair) && Committed(s, pair, s')
    ensures forall i :: 0 <= i < |pair.scores| ==>
      var row := pair.scores[i];
      OldState(s'.scores.state, row.chart) == Some(Stored(row.playcount, row.lamps, row.hash, |s.imports|))
    ensures forall i :: 0 <= i < |pair.logs| ==>
      FileIn(s'.logs, pair.logs[i].chart).cursor == Some(Cursor(pair.logs[i].playcount, pair.logs[i].hash))
  {
    forall i: nat | i < |pair.scores| { RowsAreState(s.scores, s.imports == [], |s.imports|, pair.scores, i); }
    forall i: nat | i < |pair.logs| { RowsAreCursors(Logs(s.logs, 0, 0), s.imports == [], pair.logs, i); }
  }

  lemma ImportsGrow(imports: seq<ImportRow>, before: seq<Change>, after: seq<Change>, pair: Pair, row: ImportRow)
    requires ImportsOk(imports, before) && Appends(before, after, |imports|) && !Known(imports, pair)
      && IsPair(row, pair)
    requires row.lampUpdates == LampUpdates(after, |imports|)
    ensures ImportsOk(imports + [row], after)
  {
    forall i | 0 <= i < |imports| ensures LampUpdates(after, i) == imports[i].lampUpdates && !IsPair(imports[i], pair) {
      OtherImports(before, after, |imports|, i);
    }
    forall k | 0 <= k < |after| ensures after[k].importId <= |imports| {
      if k < |before| { assert after[k] == before[k]; }
    }
  }

  /** What an import answers when its pair is submitted again, now or after any other imports. */
  ghost predicate Remembered(imports: seq<ImportRow>, pair: Pair, summary: Summary) {
    && summary.importId < |imports|
    && IsPair(imports[summary.importId], pair)
    && summary == SummaryOf(imports[summary.importId], summary.importId, imports[summary.importId].lampUpdates)
  }

  lemma RememberedLater(s: DailyStore, other: Pair, s': DailyStore, pair: Pair, summary: Summary)
    requires Committed(s, other, s') && Remembered(s.imports, pair, summary)
    ensures Remembered(s'.imports, pair, summary)
  {
  }

  // ----- The importer --------------------------------------------------------------------------

  /** The loop over score rows, against the rows loaded before the transaction. */
  method ImportScores(x: Scores, baseline: bool, importId: nat, rows: seq<ScoreRow>) returns (r: Option<(Scores, nat)>)
    requires DistinctScores(rows)
    ensures var y := ScoreSteps(x, baseline, importId, rows);
      && (r.Some? <==> y.Some?)
      && (r.Some? ==>
            && r.value.0 == y.value
            && LampUpdates(y.value.journal, importId) == LampUpdates(x.journal, importId) + r.value.1)
  {
    var previous := x.state;
    var y := x;
    var lampUpdates := 0;
    var i := 0;
    while i < |rows|
      invariant 0 <= i <= |rows|
      invariant ScoreSteps(x, baseline, importId, rows[..i]) == Some(y)
      invariant LampUpdates(y.journal, importId) == LampUpdates(x.journal, importId) + lampUpdates
    {
      var row := rows[i];
      var prior := OldState(previous, row.chart);
      OtherScore(x, baseline, importId, rows[..i], row.chart);
      assert rows[..i + 1][..i] == rows[..i];
      if ScoreBackwards(prior, baseline, row) {
        StaysRejected(x, baseline, importId, rows, i + 1);
        return None;
      }
      if Journalled(prior, baseline, row) {
        var change := ChangeOf(prior.value, importId, row);
        assert (y.journal + [change])[..|y.journal|] == y.journal;
        lampUpdates := lampUpdates + if change.now.clear > change.was.clear then 1 else 0;
      }
      y := ScoreStep(y, prior, baseline, importId, row);
      i := i + 1;
    }
    assert rows[..i] == rows;
    return Some((y, lampUpdates));
  }

  lemma {:induction false} StaysRejected(x: Scores, baseline: bool, importId: nat, rows: seq<ScoreRow>, i: nat)
    requires i <= |rows| && ScoreSteps(x, baseline, importId, rows[..i]).None?
    ensures ScoreSteps(x, baseline, importId, rows).None?
    decreases |rows| - i
  {
    if i < |rows| {
      assert rows[..i + 1][..i] == rows[..i];
      StaysRejected(x, baseline, importId, rows, i + 1);
    } else {
      assert rows[..i] == rows;
    }
  }

  /** The loop over scoredatalog rows, against the cursors loaded before the transaction. */
  method ImportLogs(table: map<Chart, DailyFile>, baseline: bool, rows: seq<Row>) returns (r: Option<Logs>)
    requires DistinctLogs(rows)
    ensures r == LogSteps(Logs(table, 0, 0), baseline, rows)
  {
    var x := Logs(table, 0, 0);
    var y := x;
    var i := 0;
    while i < |rows|
      invariant 0 <= i <= |rows|
      invariant LogSteps(x, baseline, rows[..i]) == Some(y)
    {
      var row := rows[i];
      var cursor := FileIn(table, row.chart).cursor;
      OtherLog(x, baseline, rows[..i], row.chart);
      assert rows[..i + 1][..i] == rows[..i];
      if LogBackwards(cursor, row) {
        LogStaysRejected(x, baseline, rows, i + 1);
        return None;
      }
      y := LogStep(y, cursor, baseline, row);
      i := i + 1;
    }
    assert rows[..i] == rows;
    return Some(y);
  }

  lemma {:induction false} LogStaysRejected(x: Logs, baseline: bool, rows: seq<Row>, i: nat)
    requires i <= |rows| && LogSteps(x, baseline, rows[..i]).None?
    ensures LogSteps(x, baseline, rows).None?
    decreases |rows| - i
  {
    if i < |rows| {
      assert rows[..i + 1][..i] == rows[..i];
      LogStaysRejected(x, baseline, rows, i + 1);
    } else {
      assert rows[..i] == rows;
    }
  }

  class DailyImporter {
    var db: DailyStore

    constructor ()
      ensures db == Empty && StoreOk(db)
    {
      db := Empty;
    }

    /** `_existing_result`; the lamp updates are counted from the journal. */
    method ExistingResult(pair: Pair) returns (r: Option<Summary>)
      requires StoreOk(db)
      ensures r.Some? <==> Known(db.imports, pair)
      ensures r.Some? ==> Remembered(db.imports, pair, r.value)
    {
      var i := 0;
      while i < |db.imports|
        invariant 0 <= i <= |db.imports|
        invariant forall k :: 0 <= k < i ==> !IsPair(db.imports[k], pair)
      {
        if IsPair(db.imports[i], pair) {
          return Some(SummaryOf(db.imports[i], i, LampUpdates(db.scores.journal, i)));
        }
        i := i + 1;
      }
      return None;
    }

    /**
     One import.  A pair already imported answers what it answered before; a rejected pair changes
     nothing; any other pair is committed whole, and answers for itself from then on.
     */
    method Run(pair: Pair) returns (r: Result)
      requires StoreOk(db) && KeyedRows(pair)
      modifies this
      ensures StoreOk(db) && db == After(old(db), pair)
      ensures r.Mismatch? || r.idempotent ==> db == old(db)
      ensures r.Imported? ==> Remembered(db.imports, pair, r.summary)
      ensures r.Imported? ==> r.idempotent == Known(old(db).imports, pair)
      ensures r.Imported? && !r.idempotent ==> Committed(old(db), pair, db)
      ensures r.Imported? && !r.idempotent ==>
        && pair.players != []
        && var latest := pair.players[|pair.players| - 1];
        && r.summary.importId == |old(db).imports| && r.summary.date == latest.date
        && r.summary.judged == latest.totals.judged && r.summary.playcount == latest.totals.playcount
        && r.summary.newRows == DailyRows(db.logs, pair.logs) - DailyRows(old(db).logs, pair.logs)
        && r.summary.lost == DailyLost(db.logs, pair.logs) - DailyLost(old(db).logs, pair.logs)
        && r.summary.lampUpdates == LampUpdates(db.scores.journal, |old(db).imports|)
      ensures r.Imported? && !r.idempotent ==>
        && (forall i :: 0 <= i < |pair.scores| ==>
              var row := pair.scores[i];
              OldState(db.scores.state, row.chart)
                == Some(Stored(row.playcount, row.lamps, row.hash, r.summary.importId)))
        && (forall i :: 0 <= i < |pair.logs| ==>
              FileIn(db.logs, pair.logs[i].chart).cursor
                == Some(Cursor(pair.logs[i].playcount, pair.logs[i].hash)))
      ensures r.Mismatch? <==> pair.live || (!Known(old(db).imports, pair) && !Acceptable(old(db), pair))
    {
      if pair.live {
        return Mismatch;
      }
      var existing := ExistingResult(pair);
      if existing.Some? {
        return Imported(existing.value, true);
      }
      AcceptableExactly(db, pair);
      if pair.unstable || |pair.players| == 0 || Incoherent(pair) {
        return Mismatch;
      }
      var baseline, importId := |db.imports| == 0, |db.imports|;
      var days := ImportPlayers(db.days, pair.players, importId);
      if days.None? {
        return Mismatch;
      }
      var scores := ImportScores(db.scores, baseline, importId, pair.scores);
      if scores.None? {
        return Mismatch;
      }
      var logs := ImportLogs(db.logs, baseline, pair.logs);
      if logs.None? {
        return Mismatch;
      }
      NoLampsYet(db.scores.journal, importId);
      var row := RowOf(pair, logs.value, scores.value.1);
      var after := DailyStore(db.imports + [row], days.value, scores.value.0, logs.value.table);
      CommitKeeps(db, pair, after);
      LogsCount(Logs(db.logs, 0, 0), baseline, pair.logs);
      RowsAreStored(db, pair, after);
      db := after;
      return Imported(SummaryOf(row, importId, scores.value.1), false);
    }
  }

  lemma {:induction false} NoLampsYet(journal: seq<Change>, importId: nat)
    requires forall k :: 0 <= k < |journal| ==> journal[k].importId < importId
    ensures LampUpdates(journal, importId) == 0
    decreases |journal|
  {
    if journal != [] { NoLampsYet(journal[..|journal| - 1], importId); }
  }

  // ----- What the tables say afterwards --------------------------------------------------------

  /** The chart's row in a pair, if it has one. */
  function LogRow(rows: seq<Row>, chart: Chart): (r: Option<Row>)
    ensures r.Some? ==> r.value in rows && r.value.chart == chart
    ensures r.None? ==> forall i :: 0 <= i < |rows| ==> rows[i].chart != chart
  {
    if rows == [] then None
    else if rows[|rows| - 1].chart == chart then Some(rows[|rows| - 1])
    else LogRow(rows[..|rows| - 1], chart)
  }

  /** After a whole import the base of a chart with a row is that of the row, unless the chart was known. */
  lemma {:induction false} ImportSetsBase(x: Logs, baseline: bool, rows: seq<Row>, chart: Chart)
    requires DistinctLogs(rows)
    ensures var r := LogSteps(x, baseline, rows);
      r.Some? ==>
        && (chart in r.value.table <==> chart in x.table || LogRow(rows, chart).Some?)
        && (chart in x.table ==> r.value.table[chart].base == x.table[chart].base)
        && (chart !in x.table && LogRow(rows, chart).Some? ==>
              r.value.table[chart].base == BaseOf(baseline, LogRow(rows, chart).value))
    decreases |rows|
  {
    if rows != [] {
      var n := |rows| - 1;
      if rows[n].chart == chart {
        OtherLog(x, baseline, rows[..n], chart);
      } else {
        ImportSetsBase(x, baseline, rows[..n], chart);
      }
    }
  }

  /** Imports in a row, from an empty store; those that are refused or known change nothing. */
  ghost function AfterAll(pairs: seq<Pair>): DailyStore
    requires forall i :: 0 <= i < |pairs| ==> KeyedRows(pairs[i])
    decreases |pairs|
  {
    if pairs == [] then Empty else After(AfterAll(pairs[..|pairs| - 1]), pairs[|pairs| - 1])
  }

  datatype Sight = Sight(baseline: bool, row: Row)

  /** The first row that an accepted import had for the chart, and whether that import was the very first. */
  ghost function FirstSight(pairs: seq<Pair>, chart: Chart): Option<Sight>
    requires forall i :: 0 <= i < |pairs| ==> KeyedRows(pairs[i])
    decreases |pairs|
  {
    if pairs == [] then None
    else
      var n := |pairs| - 1;
      var before := FirstSight(pairs[..n], chart);
      var s := AfterAll(pairs[..n]);
      if before.Some? || !Accepted(s, pairs[n]) || LogRow(pairs[n].logs, chart).None? then before
      else Some(Sight(s.imports == [], LogRow(pairs[n].logs, chart).value))
  }

  /**
   Conservation over any imports: a chart's plays and losses are its cursor less its playcount in the
   first import, or the whole cursor if it was first seen later, with a play.
   */
  lemma {:induction false} PlaysSinceBaseline(pairs: seq<Pair>, chart: Chart)
    requires forall i :: 0 <= i < |pairs| ==> KeyedRows(pairs[i])
    ensures var s := AfterAll(pairs); var sight := FirstSight(pairs, chart);
      && StoreOk(s)
      && (chart in s.logs <==> sight.Some?)
      && (chart in s.logs ==>
            && s.logs[chart].file.cursor.Some?
            && s.logs[chart].base == BaseOf(sight.value.baseline, sight.value.row)
            && |s.logs[chart].file.plays| + SumLost(s.logs[chart].file.plays)
               == s.logs[chart].file.cursor.value.playcount
                 - (if sight.value.baseline then sight.value.row.playcount
                    else if sight.value.row.playcount >= 1 then 0
                    else sight.value.row.playcount - 1))
    decreases |pairs|
  {
    if pairs != [] {
      var n := |pairs| - 1;
      var s := AfterAll(pairs[..n]);
      PlaysSinceBaseline(pairs[..n], chart);
      if Accepted(s, pairs[n]) {
        CommitKeeps(s, pairs[n], AfterAll(pairs));
        ImportSetsBase(Logs(s.logs, 0, 0), s.imports == [], pairs[n].logs, chart);
      }
    }
    assert chart in AfterAll(pairs).logs ==> DailyOk(AfterAll(pairs).logs[chart]);
  }
}
