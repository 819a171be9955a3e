/**
 Daily imports of a score.db and scoredatalog.db pair (src/oraja_training/collect/snapshot.py:93-340).
 The transaction is three loops over source rows; a row that moved backwards raises and the
 transaction rolls back.  Source rows have one row per key, as their tables' primary keys say.
 */
module Daily {
  import opened Common
  import opened Collector

  // ----- Score state and its journal -----------------------------------------------------------

  datatype Lamps = Lamps(clear: int, ex: Option<int>, minbp: Option<int>, combo: Option<int>)

  datatype ScoreRow = ScoreRow(chart: Chart, playcount: int, lamps: Lamps, hash: PayloadHash)

  /** One row of score_state. */
  datatype Stored = Stored(playcount: int, lamps: Lamps, hash: PayloadHash, importId: nat)

  /** One row of score_changes. */
  datatype Change = Change(importId: nat, chart: Chart, delta: int, was: Lamps, now: Lamps)

  /** The journalled part of a chart's state. */
  datatype Score = Score(playcount: int, lamps: Lamps)

  /** `first` is history: each chart's state when it was first stored. */
  datatype Scores = Scores(state: map<Chart, Stored>, journal: seq<Change>, first: map<Chart, Score>)

  function ScoreOf(s: Stored): Score {
    Score(s.playcount, s.lamps)
  }

  function OldState(state: map<Chart, Stored>, chart: Chart): Option<Stored> {
    if chart in state then Some(state[chart]) else None
  }

  predicate ScoreBackwards(prior: Option<Stored>, baseline: bool, row: ScoreRow) {
    !baseline && prior.Some? && row.playcount < prior.value.playcount
  }

  /** Whether this row is journalled: played again, or one of the four values differs. */
  predicate Journalled(prior: Option<Stored>, baseline: bool, row: ScoreRow) {
    !baseline && prior.Some? && (row.playcount > prior.value.playcount || row.lamps != prior.value.lamps)
  }

  function ChangeOf(prior: Stored, importId: nat, row: ScoreRow): Change {
    Change(importId, row.chart, row.playcount - prior.playcount, prior.lamps, row.lamps)
  }

  function ScoreStep(x: Scores, prior: Option<Stored>, baseline: bool, importId: nat, row: ScoreRow): Scores {
    Scores(
      x.state[row.chart := Stored(row.playcount, row.lamps, row.hash, importId)],
      if Journalled(prior, baseline, row) then x.journal + [ChangeOf(prior.value, importId, row)] else x.journal,
      if row.chart in x.first then x.first else x.first[row.chart := Score(row.playcount, row.lamps)])
  }

  /** The loop over score rows, each against the state as it stands; None when one moved backwards. */
  function ScoreSteps(x: Scores, baseline: bool, importId: nat, rows: seq<ScoreRow>): Option<Scores>
    decreases |rows|
  {
    if rows == [] then Some(x)
    else
      var before := ScoreSteps(x, baseline, importId, rows[..|rows| - 1]);
      var row := rows[|rows| - 1];
      if before.None? || ScoreBackwards(OldState(before.value.state, row.chart), baseline, row) then None
      else Some(ScoreStep(before.value, OldState(before.value.state, row.chart), baseline, importId, row))
  }

  /** A chart's journal replayed over its first state. */
  function Replayed(journal: seq<Change>, chart: Chart, first: Score): Score {
    if journal == [] then first
    else
      var before := Replayed(journal[..|journal| - 1], chart, first);
      var change := journal[|journal| - 1];
      if change.chart == chart then Score(before.playcount + change.delta, change.now) else before
  }

  /** The journal is lossless, and each of its rows starts where the chart's history before it ends. */
  ghost predicate JournalOk(x: Scores) {
    && x.state.Keys == x.first.Keys
    && (forall chart :: chart in x.state ==> Replayed(x.journal, chart, x.first[chart]) == ScoreOf(x.state[chart]))
    && (forall i :: 0 <= i < |x.journal| ==>
          && x.journal[i].chart in x.first
          && x.journal[i].was == Replayed(x.journal[..i], x.journal[i].chart, x.first[x.journal[i].chart]).lamps)
  }

  lemma JournalGrows(journal: seq<Change>, change: Change, chart: Chart, first: Score)
    ensures Replayed(journal + [change], chart, first)
            == (var before := Replayed(journal, chart, first);
                if change.chart == chart then Score(before.playcount + change.delta, change.now) else before)
  {
  }

  /** Nothing in the journal names a chart that was never stored. */
  lemma {:induction false} NothingToReplay(journal: seq<Change>, chart: Chart, first: Score)
    requires forall i :: 0 <= i < |journal| ==> journal[i].chart != chart
    ensures Replayed(journal, chart, first) == first
    decreases |journal|
  {
    if journal != [] { NothingToReplay(journal[..|journal| - 1], chart, first); }
  }

  lemma StepKeepsJournal(x: Scores, baseline: bool, importId: nat, row: ScoreRow)
    requires JournalOk(x) && (baseline ==> row.chart !in x.state)
    requires !ScoreBackwards(OldState(x.state, row.chart), baseline, row)
    ensures JournalOk(ScoreStep(x, OldState(x.state, row.chart), baseline, importId, row))
  {
    var prior := OldState(x.state, row.chart);
    if Journalled(prior, baseline, row) {
      JournalledStep(x, importId, row);
    } else {
      if row.chart !in x.first { NothingToReplay(x.journal, row.chart, Score(row.playcount, row.lamps)); }
    }
  }

  lemma JournalledStep(x: Scores, importId: nat, row: ScoreRow)
    requires JournalOk(x) && row.chart in x.state
    ensures var change := ChangeOf(x.state[row.chart], importId, row);
      JournalOk(Scores(x.state[row.chart := Stored(row.playcount, row.lamps, row.hash, importId)],
                       x.journal + [change], x.first))
  {
    var change := ChangeOf(x.state[row.chart], importId, row);
    var journal := x.journal + [change];
    forall chart | chart in x.state
      ensures Replayed(journal, chart, x.first[chart])
              == if chart == row.chart then Score(row.playcount, row.lamps) else ScoreOf(x.state[chart])
    {
      JournalGrows(x.journal, change, chart, x.first[chart]);
    }
    forall i | 0 <= i < |journal|
      ensures journal[i].chart in x.first
        && journal[i].was == Replayed(journal[..i], journal[i].chart, x.first[journal[i].chart]).lamps
    {
      if i < |x.journal| { assert journal[..i] == x.journal[..i]; } else { assert journal[..i] == x.journal; }
    }
  }

  ghost predicate DistinctScores(rows: seq<ScoreRow>) {
    forall i, j :: 0 <= i < j < |rows| ==> rows[i].chart != rows[j].chart
  }

  /** Every row of the import is its chart's state afterwards. */
  lemma {:induction false} RowsAreState(x: Scores, baseline: bool, importId: nat, rows: seq<ScoreRow>, i: nat)
    requires DistinctScores(rows) && i < |rows|
    ensures var r := ScoreSteps(x, baseline, importId, rows);
      r.Some? ==>
        OldState(r.value.state, rows[i].chart)
          == Some(Stored(rows[i].playcount, rows[i].lamps, rows[i].hash, importId))
    decreases |rows|
  {
    var n := |rows| - 1;
    if i < n { RowsAreState(x, baseline, importId, rows[..n], i); }
  }

  /** Charts without a row keep their state. */
  lemma {:induction false} OtherScore(x: Scores, baseline: bool, importId: nat, rows: seq<ScoreRow>, chart: Chart)
    requires forall i :: 0 <= i < |rows| ==> rows[i].chart != chart
    ensures var r := ScoreSteps(x, baseline, importId, rows); r.Some? ==>
      OldState(r.value.state, chart) == OldState(x.state, chart)
    decreases |rows|
  {
    if rows != [] { OtherScore(x, baseline, importId, rows[..|rows| - 1], chart); }
  }

  lemma {:induction false} ScoresKeep(x: Scores, baseline: bool, importId: nat, rows: seq<ScoreRow>)
    requires JournalOk(x) && DistinctScores(rows) && (baseline ==> x.state == map[])
    ensures var r := ScoreSteps(x, baseline, importId, rows); r.Some? ==> JournalOk(r.value)
    decreases |rows|
  {
    if rows != [] {
      var n := |rows| - 1;
      ScoresKeep(x, baseline, importId, rows[..n]);
      var before := ScoreSteps(x, baseline, importId, rows[..n]);
      if before.Some? && !ScoreBackwards(OldState(before.value.state, rows[n].chart), baseline, rows[n]) {
        OtherScore(x, baseline, importId, rows[..n], rows[n].chart);
        StepKeepsJournal(before.value, baseline, importId, rows[n]);
      }
    }
  }

  // ----- The journal by import -----------------------------------------------------------------

  /** `SELECT count(*) FROM score_changes WHERE import_id = ? AND new_clear > old_clear` */
  function LampUpdates(journal: seq<Change>, importId: nat): nat {
    if journal == [] then 0
    else
      var change := journal[|journal| - 1];
      LampUpdates(journal[..|journal| - 1], importId)
      + if change.importId == importId && change.now.clear > change.was.clear then 1 else 0
  }

  /** Journal rows are added under the running import's id only. */
  ghost predicate Appends(before: seq<Change>, after: seq<Change>, importId: nat) {
    && |before| <= |after| && after[..|before|] == before
    && (forall i :: |before| <= i < |after| ==> after[i].importId == importId)
  }

  lemma {:induction false} ScoresAppend(x: Scores, baseline: bool, importId: nat, rows: seq<ScoreRow>)
    ensures var r := ScoreSteps(x, baseline, importId, rows); r.Some? ==> Appends(x.journal, r.value.journal, importId)
    decreases |rows|
  {
    if rows != [] { ScoresAppend(x, baseline, importId, rows[..|rows| - 1]); }
  }

  lemma {:induction false} OtherImports(before: seq<Change>, after: seq<Change>, importId: nat, other: nat)
    requires Appends(before, after, importId) && other != importId
    ensures LampUpdates(after, other) == LampUpdates(before, other)
    decreases |after|
  {
    if |after| > |before| {
      var shorter := after[..|after| - 1];
      assert shorter[..|before|] == before;
      OtherImports(before, shorter, importId, other);
    } else {
      assert after == before;
    }
  }
}
