/**
 The rows that collection keeps and what one source row does to them
 (src/oraja_training/collect/poller.py:382-506, src/oraja_training/db/store.py:853-953).

 The source database keeps only the latest row of each chart.  The store is held as the tables it
 keys: per generation, per chart, that chart's play rows in id order and its cursor.
 */
module Collector {
  import opened Common

  type Chart = nat                     // (sha256, mode)
  type PayloadHash = nat

  /** One row of scoredatalog, its payload reduced to the hash that is compared. */
  datatype Row = Row(chart: Chart, playcount: int, hash: PayloadHash)

  datatype Play = Play(playcount: int, hash: PayloadHash, lost: nat)

  datatype Cursor = Cursor(playcount: int, hash: PayloadHash)

  datatype ChartFile = ChartFile(plays: seq<Play>, cursor: Option<Cursor>)

  type Table = map<Chart, ChartFile>

  const NoRows: ChartFile := ChartFile([], None)

  function FileOf(table: Table, chart: Chart): ChartFile {
    if chart in table then table[chart] else NoRows
  }

  /** UNIQUE(source_generation, sha256, mode, playcount) */
  predicate HasPlay(plays: seq<Play>, playcount: int) {
    exists i :: 0 <= i < |plays| && plays[i].playcount == playcount
  }

  /** INSERT OR IGNORE */
  function InsertPlay(f: ChartFile, play: Play): ChartFile {
    if HasPlay(f.plays, play.playcount) then f else f.(plays := f.plays + [play])
  }

  /** ON CONFLICT ... DO UPDATE: the payload is replaced, the accounted losses are not. */
  function CorrectPlay(f: ChartFile, playcount: int, hash: PayloadHash): ChartFile {
    if HasPlay(f.plays, playcount) then f.(plays := Corrected(f.plays, playcount, hash))
    else f.(plays := f.plays + [Play(playcount, hash, 0)])
  }

  function Corrected(plays: seq<Play>, playcount: int, hash: PayloadHash): (r: seq<Play>)
    ensures |r| == |plays|
    ensures forall i :: 0 <= i < |r| ==>
      r[i] == if plays[i].playcount == playcount then plays[i].(hash := hash) else plays[i]
  {
    if plays == [] then []
    else
      [if plays[0].playcount == playcount then plays[0].(hash := hash) else plays[0]]
      + Corrected(plays[1..], playcount, hash)
  }

  /** The cursor upsert, guarded by `excluded.last_playcount >= chart_cursor.last_playcount`. */
  function UpsertCursor(f: ChartFile, playcount: int, hash: PayloadHash): ChartFile {
    if f.cursor.Some? && playcount < f.cursor.value.playcount then f
    else f.(cursor := Some(Cursor(playcount, hash)))
  }

  function Lost(cursor: Option<Cursor>, playcount: int): nat {
    if cursor.None? || playcount - cursor.value.playcount - 1 < 0 then 0 else playcount - cursor.value.playcount - 1
  }

  predicate ShouldInsert(cursor: Option<Cursor>, row: Row) {
    cursor.None? || row.playcount > cursor.value.playcount
  }

  predicate PayloadChanged(cursor: Option<Cursor>, row: Row) {
    cursor.Some? && row.playcount == cursor.value.playcount && row.hash != cursor.value.hash
  }

  /** What the loop body does to the row's chart; `cursor` was loaded before the loop. */
  function RowFile(f: ChartFile, cursor: Option<Cursor>, row: Row): ChartFile {
    if ShouldInsert(cursor, row) then
      UpsertCursor(InsertPlay(f, Play(row.playcount, row.hash, Lost(cursor, row.playcount))), row.playcount, row.hash)
    else if PayloadChanged(cursor, row) then
      UpsertCursor(CorrectPlay(f, row.playcount, row.hash), row.playcount, row.hash)
    else f
  }

  /** The loop's variables after some rows. */
  datatype Progress = Progress(table: Table, newPlays: nat, lost: nat)

  function LoadedCursor(cursors: map<Chart, Cursor>, chart: Chart): Option<Cursor> {
    if chart in cursors then Some(cursors[chart]) else None
  }

  function RowStep(p: Progress, cursors: map<Chart, Cursor>, row: Row): Progress {
    var cursor := LoadedCursor(cursors, row.chart);
    var f := FileOf(p.table, row.chart);
    var counted := ShouldInsert(cursor, row) && !HasPlay(f.plays, row.playcount);
    Progress(
      if ShouldInsert(cursor, row) || PayloadChanged(cursor, row)
      then p.table[row.chart := RowFile(f, cursor, row)] else p.table,
      if counted then p.newPlays + 1 else p.newPlays,
      if counted then p.lost + Lost(cursor, row.playcount) else p.lost)
  }

  function RowSteps(p: Progress, cursors: map<Chart, Cursor>, rows: seq<Row>): Progress
    decreases |rows|
  {
    if rows == [] then p else RowStep(RowSteps(p, cursors, rows[..|rows| - 1]), cursors, rows[|rows| - 1])
  }

  // ----- One chart -----------------------------------------------------------------------------

  /** Each play row accounts for the plays since the row before it; the cursor is the last row. */
  ghost predicate ChartOk(f: ChartFile) {
    && (f.cursor.None? <==> f.plays == [])
    && (f.plays != [] ==>
          && f.plays[0].lost == 0
          && f.cursor == Some(Cursor(f.plays[|f.plays| - 1].playcount, f.plays[|f.plays| - 1].hash)))
    && (forall i :: 0 < i < |f.plays| ==> f.plays[i].playcount == f.plays[i - 1].playcount + f.plays[i].lost + 1)
  }

  lemma {:induction false} PlaysAscend(f: ChartFile, i: nat, j: nat)
    requires ChartOk(f) && i < j < |f.plays|
    ensures f.plays[i].playcount < f.plays[j].playcount
    decreases j
  {
    if i < j - 1 { PlaysAscend(f, i, j - 1); }
  }

  /** A play row has the cursor's playcount and hash, and no row is above it. */
  ghost predicate CursorOnTop(f: ChartFile) {
    f.cursor.Some? ==>
      && (exists i :: 0 <= i < |f.plays| &&
            f.plays[i].playcount == f.cursor.value.playcount && f.plays[i].hash == f.cursor.value.hash)
      && forall i :: 0 <= i < |f.plays| ==> f.plays[i].playcount <= f.cursor.value.playcount
  }

  lemma CursorIsOnTop(f: ChartFile)
    requires ChartOk(f)
    ensures CursorOnTop(f)
  {
    var n := |f.plays| - 1;
    forall i | 0 <= i < n ensures f.plays[i].playcount < f.plays[n].playcount { PlaysAscend(f, i, n); }
    assert f.cursor.Some? ==>
      f.plays[n].playcount == f.cursor.value.playcount && f.plays[n].hash == f.cursor.value.hash;
  }

  function SumLost(plays: seq<Play>): nat {
    if plays == [] then 0 else SumLost(plays[..|plays| - 1]) + plays[|plays| - 1].lost
  }

  /** Conservation: rows and losses together cover every play from the first seen to the cursor. */
  lemma {:induction false} PlaysAreConserved(f: ChartFile)
    requires ChartOk(f) && f.plays != []
    ensures |f.plays| + SumLost(f.plays) == f.cursor.value.playcount - f.plays[0].playcount + 1
    decreases |f.plays|
  {
    var n := |f.plays| - 1;
    if n > 0 {
      var before := ChartFile(f.plays[..n], Some(Cursor(f.plays[n - 1].playcount, f.plays[n - 1].hash)));
      PlaysAreConserved(before);
    } else {
      assert SumLost(f.plays[..0]) == 0;
    }
  }

  /** The new rows and losses that a row stands for. */
  function Advance(cursor: Option<Cursor>, row: Row): nat {
    if cursor.None? then 1
    else if row.playcount > cursor.value.playcount then row.playcount - cursor.value.playcount
    else 0
  }

  lemma NoPlayAbove(f: ChartFile, playcount: int)
    requires ChartOk(f) && f.plays != [] && playcount > f.cursor.value.playcount
    ensures !HasPlay(f.plays, playcount)
  {
    forall i | 0 <= i < |f.plays| ensures f.plays[i].playcount < playcount {
      if i < |f.plays| - 1 { PlaysAscend(f, i, |f.plays| - 1); }
    }
  }

  lemma CorrectionKeeps(f: ChartFile, hash: PayloadHash)
    requires ChartOk(f) && f.plays != []
    ensures var playcount := f.cursor.value.playcount;
      ChartOk(UpsertCursor(CorrectPlay(f, playcount, hash), playcount, hash))
  {
    var n := |f.plays| - 1;
    forall i | 0 <= i < n ensures f.plays[i].playcount < f.plays[n].playcount { PlaysAscend(f, i, n); }
    assert HasPlay(f.plays, f.plays[n].playcount);
  }

  lemma SumLostGrows(plays: seq<Play>, play: Play)
    ensures SumLost(plays + [play]) == SumLost(plays) + play.lost
  {
    assert (plays + [play])[..|plays|] == plays;
  }

  lemma {:induction false} SumLostCorrected(plays: seq<Play>, corrected: seq<Play>)
    requires |corrected| == |plays| && forall i :: 0 <= i < |plays| ==> corrected[i].lost == plays[i].lost
    ensures SumLost(corrected) == SumLost(plays)
    decreases |plays|
  {
    if plays != [] { SumLostCorrected(plays[..|plays| - 1], corrected[..|plays| - 1]); }
  }

  /** A row past its chart's cursor is one play row more, with the plays in between lost; no other row is. */
  lemma RowGrows(f: ChartFile, row: Row)
    requires ChartOk(f) && (f.cursor.Some? ==> f.cursor.value.playcount <= row.playcount)
    ensures var f' := RowFile(f, f.cursor, row); var later := ShouldInsert(f.cursor, row);
      && |f'.plays| == |f.plays| + (if later then 1 else 0)
      && SumLost(f'.plays) == SumLost(f.plays) + (if later then Lost(f.cursor, row.playcount) else 0)
  {
    if ShouldInsert(f.cursor, row) {
      if f.plays != [] { NoPlayAbove(f, row.playcount); }
      SumLostGrows(f.plays, Play(row.playcount, row.hash, Lost(f.cursor, row.playcount)));
    } else if PayloadChanged(f.cursor, row) {
      assert HasPlay(f.plays, f.plays[|f.plays| - 1].playcount);
      SumLostCorrected(f.plays, Corrected(f.plays, row.playcount, row.hash));
    }
  }

  /** A row at or past its chart's cursor leaves the cursor exactly on the row. */
  lemma RowKeeps(f: ChartFile, row: Row)
    requires ChartOk(f) && (f.cursor.Some? ==> f.cursor.value.playcount <= row.playcount)
    ensures var f' := RowFile(f, f.cursor, row);
      && ChartOk(f') && f'.cursor == Some(Cursor(row.playcount, row.hash))
      && (ShouldInsert(f.cursor, row) ==> !HasPlay(f.plays, row.playcount))
      && Advance(f.cursor, row) == if ShouldInsert(f.cursor, row) then 1 + Lost(f.cursor, row.playcount) else 0
  {
    if ShouldInsert(f.cursor, row) {
      if f.plays != [] { NoPlayAbove(f, row.playcount); }
    } else if PayloadChanged(f.cursor, row) {
      CorrectionKeeps(f, row.hash);
    }
  }
}
