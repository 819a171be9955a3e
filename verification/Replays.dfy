/**
 Replay slots matched to plays, and the gauge a play takes from them
 (src/oraja_training/db/store.py:707-831).  Row ids are positions; plays are only ever inserted.
 */
module Replays {
  import opened Common

  type Gauge = nat
  type PlayId = nat

  datatype PlayRow = PlayRow(sha: nat, mode: int, playedAt: int, course: bool, selected: Option<Gauge>)

  /** A slot's content as read from its file; `hash` is the digest of all of it but the path. */
  datatype Meta = Meta(path: nat, hash: nat, sha: nat, mode: int, playedAt: int, gauge: Gauge)

  /** match_status and matched_play_id. */
  datatype Match = Unmatched | Ambiguous | Matched(play: PlayId)

  datatype ReplayRow = ReplayRow(meta: Meta, found: Match)

  const Tolerance: int := 30

  predicate Hit(play: PlayRow, meta: Meta, mode: int) {
    play.sha == meta.sha && play.mode == mode && meta.playedAt <= play.playedAt <= meta.playedAt + Tolerance
      && !play.course
  }

  /** Ids of the plays that the query would list without its limit. */
  function Hits(plays: seq<PlayRow>, meta: Meta, mode: int): seq<PlayId> {
    if plays == [] then []
    else
      var n := |plays| - 1;
      Hits(plays[..n], meta, mode) + if Hit(plays[n], meta, mode) then [n] else []
  }

  /** The exact mode, else mode 0 for a chart without undefined long notes. */
  function Candidates(plays: seq<PlayRow>, meta: Meta): seq<PlayId> {
    var exact := Hits(plays, meta, meta.mode);
    if exact == [] && (meta.mode == 1 || meta.mode == 2) then Hits(plays, meta, 0) else exact
  }

  /** What an ingest of this content would find if it were the first. */
  function Fresh(plays: seq<PlayRow>, meta: Meta): Match {
    var c := Candidates(plays, meta);
    if |c| == 1 then Matched(c[0]) else if |c| > 1 then Ambiguous else Unmatched
  }

  /** The gauge of the highest-id replay matched to the play, if any. */
  function GaugeOf(replays: seq<ReplayRow>, play: PlayId): Option<Gauge> {
    if replays == [] then None
    else
      var last := replays[|replays| - 1];
      if last.found == Matched(play) then Some(last.meta.gauge) else GaugeOf(replays[..|replays| - 1], play)
  }

  predicate IsSlot(row: ReplayRow, meta: Meta) {
    row.meta.path == meta.path && row.meta.hash == meta.hash
  }

  ghost predicate Known(replays: seq<ReplayRow>, meta: Meta) {
    exists i :: 0 <= i < |replays| && IsSlot(replays[i], meta)
  }

  // ----- Invariants ----------------------------------------------------------------------------

  /** Every play carries the gauge of its newest matched replay, or none. */
  ghost predicate GaugesOk(plays: seq<PlayRow>, replays: seq<ReplayRow>) {
    forall p :: 0 <= p < |plays| ==> plays[p].selected == GaugeOf(replays, p)
  }

  /** Matches name plays; whatever was once found has candidates still; a slot's content is one row. */
  ghost predicate RowsOk(plays: seq<PlayRow>, replays: seq<ReplayRow>) {
    && (forall i :: 0 <= i < |replays| ==>
          && (replays[i].found.Matched? ==> replays[i].found.play < |plays|)
          && (replays[i].found != Unmatched ==> Candidates(plays, replays[i].meta) != []))
    && (forall i, j :: 0 <= i < j < |replays| ==> !IsSlot(replays[i], replays[j].meta))
  }

  lemma {:induction false} HitsStayIn(plays: seq<PlayRow>, meta: Meta, mode: int)
    ensures forall k :: 0 <= k < |Hits(plays, meta, mode)| ==> Hits(plays, meta, mode)[k] < |plays|
    decreases |plays|
  {
    if plays != [] { HitsStayIn(plays[..|plays| - 1], meta, mode); }
  }

  lemma CandidatesStayIn(plays: seq<PlayRow>, meta: Meta)
    ensures forall k :: 0 <= k < |Candidates(plays, meta)| ==> Candidates(plays, meta)[k] < |plays|
  {
    HitsStayIn(plays, meta, meta.mode);
    HitsStayIn(plays, meta, 0);
  }

  lemma CandidatesStay(plays: seq<PlayRow>, play: PlayRow, meta: Meta)
    requires Candidates(plays, meta) != []
    ensures Candidates(plays + [play], meta) != []
  {
  }

  /** Same chart and mode, played within thirty seconds after the slot was written, and not in a course. */
  ghost predicate PlayedFor(plays: seq<PlayRow>, p: nat, meta: Meta, mode: int) {
    && p < |plays| && plays[p].sha == meta.sha && plays[p].mode == mode && !plays[p].course
    && 0 <= plays[p].playedAt - meta.playedAt <= 30
  }

  ghost predicate PlayedOnce(plays: seq<PlayRow>, p: nat, meta: Meta, mode: int) {
    PlayedFor(plays, p, meta, mode) && forall q: nat :: PlayedFor(plays, q, meta, mode) ==> q == p
  }

  ghost predicate NotPlayed(plays: seq<PlayRow>, meta: Meta, mode: int) {
    forall q: nat :: !PlayedFor(plays, q, meta, mode)
  }

  ghost predicate Ascending(ids: seq<PlayId>) {
    forall j, k :: 0 <= j < k < |ids| ==> ids[j] < ids[k]
  }

  /** The query lists exactly these plays, each once and in id order. */
  lemma {:induction false} HitsExactly(plays: seq<PlayRow>, meta: Meta, mode: int)
    ensures forall p: nat :: p in Hits(plays, meta, mode) <==> PlayedFor(plays, p, meta, mode)
    ensures Ascending(Hits(plays, meta, mode))
    decreases |plays|
  {
    if plays != [] {
      var n := |plays| - 1;
      HitsExactly(plays[..n], meta, mode);
      HitsStayIn(plays[..n], meta, mode);
      forall p: nat ensures p in Hits(plays, meta, mode) <==> PlayedFor(plays, p, meta, mode) {
        assert p in Hits(plays[..n], meta, mode) <==> PlayedFor(plays[..n], p, meta, mode);
      }
    }
  }

  lemma TwoHits(hits: seq<PlayId>)
    requires Ascending(hits)
    ensures |hits| >= 2 ==> exists p, q :: p in hits && q in hits && p < q
  {
    if |hits| >= 2 { assert hits[0] in hits && hits[1] in hits && hits[0] < hits[1]; }
  }

  lemma OneHit(plays: seq<PlayRow>, meta: Meta, mode: int, p: nat)
    ensures Hits(plays, meta, mode) == [p] <==> PlayedOnce(plays, p, meta, mode)
    ensures Hits(plays, meta, mode) == [] <==> NotPlayed(plays, meta, mode)
  {
    var hits := Hits(plays, meta, mode);
    HitsExactly(plays, meta, mode);
    TwoHits(hits);
    if PlayedOnce(plays, p, meta, mode) { assert p in hits; }
    if hits != [] { assert hits[0] in hits; }
  }

  /** A slot is matched to the only play it can be of, where mode 0 stands in for an unplayed mode 1 or 2. */
  lemma MatchMeans(plays: seq<PlayRow>, meta: Meta, p: nat)
    ensures var fallback := (meta.mode == 1 || meta.mode == 2) && NotPlayed(plays, meta, meta.mode);
      && (Fresh(plays, meta) == Matched(p)
          <==> PlayedOnce(plays, p, meta, meta.mode) || (fallback && PlayedOnce(plays, p, meta, 0)))
      && (Fresh(plays, meta) == Unmatched
          <==> NotPlayed(plays, meta, meta.mode) && (fallback ==> NotPlayed(plays, meta, 0)))
  {
    OneHit(plays, meta, meta.mode, p);
    OneHit(plays, meta, 0, p);
  }

  /** A play's gauge is that of the last replay row matched to it. */
  lemma {:induction false} GaugeIsNewest(replays: seq<ReplayRow>, play: PlayId, i: nat)
    requires i < |replays| && replays[i].found == Matched(play)
    requires forall j :: i < j < |replays| ==> replays[j].found != Matched(play)
    ensures GaugeOf(replays, play) == Some(replays[i].meta.gauge)
    decreases |replays|
  {
    if i < |replays| - 1 { GaugeIsNewest(replays[..|replays| - 1], play, i); }
  }

  /** The query does not look at the gauge column. */
  lemma {:induction false} HitsIgnoreGauges(a: seq<PlayRow>, b: seq<PlayRow>, meta: Meta, mode: int)
    requires |a| == |b| && forall p :: 0 <= p < |a| ==> a[p].(selected := None) == b[p].(selected := None)
    ensures Hits(a, meta, mode) == Hits(b, meta, mode)
    decreases |a|
  {
    if a != [] {
      var n := |a| - 1;
      assert a[n].(selected := None) == b[n].(selected := None);
      HitsIgnoreGauges(a[..n], b[..n], meta, mode);
    }
  }

  /** A row that names neither before nor after a play has no say in its gauge. */
  lemma {:induction false} OtherRow(replays: seq<ReplayRow>, i: nat, found: Match, play: PlayId)
    requires i < |replays| && replays[i].found != Matched(play) && found != Matched(play)
    ensures GaugeOf(replays[i := replays[i].(found := found)], play) == GaugeOf(replays, play)
    decreases |replays|
  {
    var n := |replays| - 1;
    var after := replays[i := replays[i].(found := found)];
    if i < n {
      assert after[..n] == replays[..n][i := replays[i].(found := found)];
      OtherRow(replays[..n], i, found, play);
    } else {
      assert after[..n] == replays[..n];
    }
  }

  // ----- The tables ----------------------------------------------------------------------------

  class ReplayTables {
    var plays: seq<PlayRow>
    var replays: seq<ReplayRow>

    constructor ()
      ensures Valid() && plays == [] && replays == []
    {
      plays, replays := [], [];
    }

    ghost predicate Valid()
      reads this
    {
      GaugesOk(plays, replays) && RowsOk(plays, replays)
    }

    /** A new play row; its selected gauge is not known yet. */
    method InsertPlay(sha: nat, mode: int, playedAt: int, course: bool)
      requires Valid()
      modifies this`plays
      ensures Valid() && plays == old(plays) + [PlayRow(sha, mode, playedAt, course, None)]
    {
      var play := PlayRow(sha, mode, playedAt, course, None);
      forall i | 0 <= i < |replays| && replays[i].found != Unmatched
        ensures Candidates(plays + [play], replays[i].meta) != []
      {
        CandidatesStay(plays, play, replays[i].meta);
      }
      NoGaugeYet(replays, |plays|);
      plays := plays + [play];
    }

    /** `refresh_play_gauge` */
    method RefreshPlayGauge(play: PlayId)
      requires play < |plays|
      modifies this`plays
      ensures plays == old(plays)[play := old(plays)[play].(selected := GaugeOf(replays, play))]
    {
      var replacement: Option<Gauge> := None;
      var i := |replays|;
      assert replays[..i] == replays;
      while i > 0 && replacement.None?
        invariant 0 <= i <= |replays|
        invariant if replacement.None? then GaugeOf(replays, play) == GaugeOf(replays[..i], play)
                  else replacement == GaugeOf(replays, play)
        decreases i
      {
        i := i - 1;
        assert replays[..i + 1][..i] == replays[..i];
        if replays[i].found == Matched(play) {
          replacement := Some(replays[i].meta.gauge);
        }
      }
      plays := plays[play := plays[play].(selected := replacement)];
    }

    /** `play_matches`: at most two ids, in id order. */
    method PlayMatches(meta: Meta, mode: int) returns (ids: seq<PlayId>)
      ensures var all := Hits(plays, meta, mode); ids == if |all| <= 2 then all else all[..2]
    {
      ids := [];
      var i := 0;
      while i < |plays| && |ids| < 2
        invariant 0 <= i <= |plays|
        invariant ids == Hits(plays[..i], meta, mode) && |ids| <= 2
      {
        assert plays[..i + 1][..i] == plays[..i];
        if Hit(plays[i], meta, mode) {
          ids := ids + [i];
        }
        i := i + 1;
      }
      HitsPrefix(plays, meta, mode, i);
    }

    /** A known slot row takes a new match; the play it leaves and the play it joins are refreshed. */
    method Rematch(i: nat, found: Match)
      requires i < |replays| && GaugesOk(plays, replays) && replays[i].found != found
      requires found.Matched? ==> found.play < |plays|
      requires replays[i].found.Matched? ==> replays[i].found.play < |plays|
      modifies this
      ensures replays == old(replays)[i := old(replays)[i].(found := found)]
      ensures GaugesOk(plays, replays) && SamePlays(old(plays), plays)
    {
      var previous := replays[i].found;
      ghost var before := replays;
      replays := replays[i := replays[i].(found := found)];
      if previous.Matched? {
        RefreshPlayGauge(previous.play);
      }
      if found.Matched? {
        RefreshPlayGauge(found.play);
      }
      forall p | 0 <= p < |plays| ensures plays[p].selected == GaugeOf(replays, p) {
        if previous != Matched(p) && found != Matched(p) { OtherRow(before, i, found, p); }
      }
    }

    method FindSlot(meta: Meta) returns (i: nat)
      ensures i <= |replays| && (i < |replays| ==> IsSlot(replays[i], meta))
      ensures i == |replays| ==> !Known(replays, meta)
    {
      i := 0;
      while i < |replays| && !IsSlot(replays[i], meta)
        invariant i <= |replays| && forall k :: 0 <= k < i ==> !IsSlot(replays[k], meta)
      {
        i := i + 1;
      }
    }

    /** The matches of a slot: both queries, the second only without an exact hit. */
    method Matches(meta: Meta) returns (ids: seq<PlayId>)
      ensures var all := Candidates(plays, meta); ids == if |all| <= 2 then all else all[..2]
    {
      ids := PlayMatches(meta, meta.mode);
      if ids == [] && (meta.mode == 1 || meta.mode == 2) {
        ids := PlayMatches(meta, 0);
      }
    }

    /**
     One slot observed.  Whether it is new or seen before, it ends with the status that a first
     ingest would compute from the plays of now, and nothing is written when it had that already.
     */
    method Ingest(meta: Meta) returns (status: Match, overwritten: bool, changed: bool)
      requires Valid() && ContentTold(replays, meta)
      modifies this
      ensures Valid() && SamePlays(old(plays), plays)
      ensures status == Fresh(old(plays), meta) == Fresh(plays, meta)
      ensures Has(replays, ReplayRow(meta, status))
      ensures changed <==> !Has(old(replays), ReplayRow(meta, status))
      ensures !changed ==> plays == old(plays) && replays == old(replays)
      ensures if Known(old(replays), meta)
        then |replays| == |old(replays)|
          && forall k :: 0 <= k < |replays| && !IsSlot(old(replays)[k], meta) ==> replays[k] == old(replays)[k]
        else replays == old(replays) + [ReplayRow(meta, status)]
      ensures overwritten <==>
        && !Known(old(replays), meta)
        && exists i :: 0 <= i < |old(replays)| && old(replays)[i].meta.path == meta.path
    {
      var matches := Matches(meta);
      CandidatesStayIn(plays, meta);
      var i := FindSlot(meta);
      if i < |replays| {
        var previous := replays[i].found;
        assert replays[i] == ReplayRow(meta, previous);
        OneRow(replays, meta, i);
        status := if |matches| == 1 then Matched(matches[0]) else if |matches| > 1 then Ambiguous else previous;
        changed, overwritten := status != previous, false;
        if changed {
          Rematch(i, status);
          RowsAfter(old(plays), plays, old(replays), i, status);
        }
        assert replays[i] == ReplayRow(meta, status);
        FreshIsFresh(old(plays), plays, meta);
        return;
      }
      overwritten := exists k :: 0 <= k < |replays| && replays[k].meta.path == meta.path;
      status := if |matches| == 1 then Matched(matches[0]) else if |matches| > 1 then Ambiguous else Unmatched;
      changed := true;
      assert !Has(replays, ReplayRow(meta, status));
      NewRow(meta, status);
      assert replays[|replays| - 1] == ReplayRow(meta, status);
      FreshIsFresh(old(plays), plays, meta);
    }

    /** INSERT of a slot not seen before, and the gauge of the play it matches. */
    method NewRow(meta: Meta, status: Match)
      requires Valid() && !Known(replays, meta) && status == Fresh(plays, meta)
      modifies this
      ensures Valid() && SamePlays(old(plays), plays) && replays == old(replays) + [ReplayRow(meta, status)]
    {
      CandidatesStayIn(plays, meta);
      ghost var before := replays;
      replays := replays + [ReplayRow(meta, status)];
      assert replays[..|before|] == before;
      if status.Matched? {
        RefreshPlayGauge(status.play);
      }
      forall k | 0 <= k < |replays| && replays[k].found != Unmatched ensures Candidates(plays, replays[k].meta) != [] {
        GaugesDoNotMatter(old(plays), plays, replays[k].meta);
      }
    }
  }

  /** The same plays, up to their gauges. */
  ghost predicate SamePlays(a: seq<PlayRow>, b: seq<PlayRow>) {
    |a| == |b| && forall p :: 0 <= p < |a| ==> a[p].(selected := None) == b[p].(selected := None)
  }

  /** A digest stands for one content. */
  ghost predicate ContentTold(replays: seq<ReplayRow>, meta: Meta) {
    forall i :: 0 <= i < |replays| && IsSlot(replays[i], meta) ==> replays[i].meta == meta
  }

  ghost predicate Has(replays: seq<ReplayRow>, row: ReplayRow) {
    exists i :: 0 <= i < |replays| && replays[i] == row
  }

  lemma GaugesDoNotMatter(a: seq<PlayRow>, b: seq<PlayRow>, meta: Meta)
    requires SamePlays(a, b)
    ensures Candidates(a, meta) == Candidates(b, meta)
  {
    HitsIgnoreGauges(a, b, meta, meta.mode);
    HitsIgnoreGauges(a, b, meta, 0);
  }

  lemma FreshIsFresh(a: seq<PlayRow>, b: seq<PlayRow>, meta: Meta)
    requires SamePlays(a, b)
    ensures Fresh(a, meta) == Fresh(b, meta)
  {
    GaugesDoNotMatter(a, b, meta);
  }

  /** A slot has one row. */
  lemma OneRow(replays: seq<ReplayRow>, meta: Meta, i: nat)
    requires forall j, k :: 0 <= j < k < |replays| ==> !IsSlot(replays[j], replays[k].meta)
    requires i < |replays| && replays[i].meta == meta
    ensures forall found :: Has(replays, ReplayRow(meta, found)) <==> replays[i].found == found
    ensures Known(replays, meta)
  {
  }

  lemma RowsAfter(a: seq<PlayRow>, b: seq<PlayRow>, replays: seq<ReplayRow>, i: nat, found: Match)
    requires SamePlays(a, b) && RowsOk(a, replays) && i < |replays|
    requires found.Matched? ==> found.play < |a|
    requires found != Unmatched ==> Candidates(a, replays[i].meta) != []
    ensures RowsOk(b, replays[i := replays[i].(found := found)])
    ensures Has(replays[i := replays[i].(found := found)], ReplayRow(replays[i].meta, found))
  {
    var after := replays[i := replays[i].(found := found)];
    forall k | 0 <= k < |after| && after[k].found != Unmatched ensures Candidates(b, after[k].meta) != [] {
      GaugesDoNotMatter(a, b, after[k].meta);
    }
    assert after[i] == ReplayRow(replays[i].meta, found);
  }

  lemma {:induction false} NoGaugeYet(replays: seq<ReplayRow>, play: PlayId)
    requires forall i :: 0 <= i < |replays| ==> replays[i].found != Matched(play)
    ensures GaugeOf(replays, play) == None
    decreases |replays|
  {
    if replays != [] { NoGaugeYet(replays[..|replays| - 1], play); }
  }

  lemma {:induction false} HitsPrefix(plays: seq<PlayRow>, meta: Meta, mode: int, i: nat)
    requires i <= |plays|
    ensures var some, all := Hits(plays[..i], meta, mode), Hits(plays, meta, mode);
      |some| <= |all| && all[..|some|] == some && (i == |plays| ==> some == all)
    decreases |plays| - i
  {
    if i < |plays| {
      assert plays[..i + 1][..i] == plays[..i];
      HitsPrefix(plays, meta, mode, i + 1);
    } else {
      assert plays[..i] == plays;
    }
  }
}
