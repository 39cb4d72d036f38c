/**
 The scoring service on one contest's rows, statement by statement: what one delivery of a result
 event does when no other worker interferes.
 */
module ScoringService {
  import opened Ledger
  import opened Markets
  import opened GroupedScoring
  import opened ScoringPipeline

  /** The scores of the rows of a match. */
  function MatchScores(ps: seq<Prediction>, m: Uuid, r: FinalResult, points: map<Market, int>): map<nat, Score> {
    map i: nat | i < |ps| && ps[i].matchId == m :: DirectScore(ps[i], r, points)
  }

  function RowsOfMatch(ps: seq<Prediction>, m: Uuid): seq<Prediction> {
    if ps == [] then [] else RowsOfMatch(ps[..|ps| - 1], m) + if ps[|ps| - 1].matchId == m then [ps[|ps| - 1]] else []
  }

  lemma {:induction false} RowsOfMatchFacts(ps: seq<Prediction>, m: Uuid)
    ensures forall p :: p in RowsOfMatch(ps, m) <==> p in ps && p.matchId == m
    ensures DistinctIds(ps) ==> DistinctIds(RowsOfMatch(ps, m))
  {
    if ps != [] {
      var rest, last := ps[..|ps| - 1], ps[|ps| - 1];
      RowsOfMatchFacts(rest, m);
      assert forall p :: p in ps <==> p in rest || p == last;
      if DistinctIds(ps) {
        forall p | p in rest ensures p.id != last.id {
          var i :| 0 <= i < |rest| && rest[i] == p;
          assert ps[i].id != ps[|ps| - 1].id;
        }
        forall i | 0 <= i < |RowsOfMatch(rest, m)|
          ensures RowsOfMatch(rest, m)[i].id != last.id
        {
          assert RowsOfMatch(rest, m)[i] in rest;
        }
      }
    }
  }

  method SelectRows(ps: seq<Prediction>, m: Uuid) returns (rows: seq<Prediction>)
    ensures rows == RowsOfMatch(ps, m)
  {
    rows := [];
    var i := 0;
    while i < |ps|
      invariant 0 <= i <= |ps| && rows == RowsOfMatch(ps[..i], m)
    {
      assert ps[..i + 1][..i] == ps[..i];
      if ps[i].matchId == m { rows := rows + [ps[i]]; }
      i := i + 1;
    }
    assert ps[..i] == ps;
  }

  /** The rows of the bulk updates are the rows of the match. */
  lemma WrittenRows(ps: seq<Prediction>, m: Uuid, r: FinalResult, points: map<Market, int>,
                    written: map<Uuid, Score>, i: nat)
    requires DistinctIds(ps) && i < |ps|
    requires forall id :: id in written <==> IsPrediction(RowsOfMatch(ps, m), id)
    requires forall p :: p in RowsOfMatch(ps, m) && p.id in written ==> written[p.id] == DirectScore(p, r, points)
    ensures ps[i].id in written <==> ps[i].matchId == m
    ensures ps[i].id in written ==> written[ps[i].id] == DirectScore(ps[i], r, points)
  {
    RowsOfMatchFacts(ps, m);
    assert ps[i] in ps;
    if ps[i].id in written {
      var p :| p in RowsOfMatch(ps, m) && p.id == ps[i].id;
      SameId(ps, p, ps[i]);
    }
    if ps[i].matchId == m { assert ps[i] in RowsOfMatch(ps, m); }
  }

  lemma SameId(ps: seq<Prediction>, p: Prediction, q: Prediction)
    requires DistinctIds(ps) && p in ps && q in ps && p.id == q.id
    ensures p == q
  {
  }

  /** Scored sums grouped by entry, in one pass over the rows. */
  method GroupTotals(ps: seq<Prediction>, scores: seq<Option<Score>>) returns (sums: map<Uuid, Totals>)
    requires |ps| == |scores|
    ensures forall e :: e in sums <==> HasScored(ps, scores, e)
    ensures forall e :: e in sums ==> sums[e] == Fold(ps, scores, e) && Counted(sums[e], ps, scores, e)
  {
    sums := map[];
    var i := 0;
    while i < |ps|
      invariant 0 <= i <= |ps|
      invariant forall e :: e in sums <==> HasScored(ps[..i], scores[..i], e)
      invariant forall e :: e in sums ==> sums[e] == Fold(ps[..i], scores[..i], e)
    {
      forall e
        ensures HasScored(ps[..i + 1], scores[..i + 1], e) <==>
                HasScored(ps[..i], scores[..i], e) || (ps[i].entry == e && scores[i].Some?)
      {
        OneMoreRow(ps, scores, i, e);
      }
      assert ps[..i + 1][..i] == ps[..i] && scores[..i + 1][..i] == scores[..i];
      if scores[i].Some? {
        var e := ps[i].entry;
        if e !in sums { NothingScored(ps[..i], scores[..i], e); }
        sums := sums[e := Add(if e in sums then sums[e] else ZERO, ps[i].tier, scores[i].value)];
      }
      i := i + 1;
    }
    assert ps[..i] == ps && scores[..i] == scores;
    forall e | e in sums ensures Counted(sums[e], ps, scores, e) { FoldCounts(ps, scores, e); }
  }

  lemma OneMoreRow(ps: seq<Prediction>, scores: seq<Option<Score>>, i: nat, e: Uuid)
    requires i < |ps| == |scores|
    ensures HasScored(ps[..i + 1], scores[..i + 1], e) <==>
            HasScored(ps[..i], scores[..i], e) || (ps[i].entry == e && scores[i].Some?)
  {
  }

  function PendingPredictions(scores: seq<Option<Score>>): nat {
    if scores == [] then 0 else PendingPredictions(scores[..|scores| - 1]) + if scores[|scores| - 1].None? then 1 else 0
  }

  function PendingFixtures(matches: seq<Uuid>, finalized: set<Uuid>): nat {
    if matches == [] then 0
    else PendingFixtures(matches[..|matches| - 1], finalized) + if matches[|matches| - 1] !in finalized then 1 else 0
  }

  /** Both counts are zero exactly when nothing is missing. */
  lemma NothingPending(matches: seq<Uuid>, finalized: set<Uuid>, scores: seq<Option<Score>>)
    ensures PendingFixtures(matches, finalized) == 0 <==> forall m :: m in matches ==> m in finalized
    ensures PendingPredictions(scores) == 0 <==> forall i :: 0 <= i < |scores| ==> scores[i].Some?
  {
    NoPendingFixtures(matches, finalized);
    NoPendingPredictions(scores);
  }

  lemma {:induction false} NoPendingFixtures(matches: seq<Uuid>, finalized: set<Uuid>)
    ensures PendingFixtures(matches, finalized) == 0 <==> forall m :: m in matches ==> m in finalized
  {
    if matches != [] {
      NoPendingFixtures(matches[..|matches| - 1], finalized);
      assert forall m :: m in matches <==> m in matches[..|matches| - 1] || m == matches[|matches| - 1];
    }
  }

  lemma {:induction false} NoPendingPredictions(scores: seq<Option<Score>>)
    ensures PendingPredictions(scores) == 0 <==> forall i :: 0 <= i < |scores| ==> scores[i].Some?
  {
    if scores != [] { NoPendingPredictions(scores[..|scores| - 1]); }
  }

  class Service {
    const predictions: seq<Prediction>
    const points: map<Market, int>
    var status: ContestStatus
    var scores: seq<Option<Score>>
    var totals: map<Uuid, Totals>
    var scoredEvents: nat

    constructor (predictions: seq<Prediction>, points: map<Market, int>, entries: set<Uuid>)
      ensures this.predictions == predictions && this.points == points && status == Locked && scoredEvents == 0
      ensures scores == seq(|predictions|, _ => None) && totals == map e | e in entries :: ZERO
    {
      this.predictions, this.points := predictions, points;
      status, scores, totals, scoredEvents := Locked, seq(|predictions|, _ => None), map e | e in entries :: ZERO, 0;
    }

    /** Writes the scores of the bulk updates into the rows. */
    method WriteRows(m: Uuid, r: FinalResult, written: map<Uuid, Score>)
      requires DistinctIds(predictions) && |scores| == |predictions|
      requires forall id :: id in written <==> IsPrediction(RowsOfMatch(predictions, m), id)
      requires forall p ::
               p in RowsOfMatch(predictions, m) && p.id in written ==> written[p.id] == DirectScore(p, r, points)
      modifies this`scores
      ensures scores == Overlay(old(scores), MatchScores(predictions, m, r, points))
    {
      var i := 0;
      while i < |predictions|
        invariant 0 <= i <= |predictions| == |scores|
        invariant forall n ::
                  0 <= n < i ==> scores[n] == Overlay(old(scores), MatchScores(predictions, m, r, points))[n]
        invariant forall n :: i <= n < |scores| ==> scores[n] == old(scores)[n]
      {
        WrittenRows(predictions, m, r, points, written, i);
        if predictions[i].id in written { scores := scores[i := Some(written[predictions[i].id])]; }
        i := i + 1;
      }
    }

    /** Scores every pick of the match, group by group. */
    method ScorePicks(m: Uuid, r: FinalResult)
      requires DistinctIds(predictions) && |scores| == |predictions|
      modifies this`scores
      ensures scores == Overlay(old(scores), MatchScores(predictions, m, r, points))
      ensures forall i :: 0 <= i < |predictions| && predictions[i].matchId == m && ValidPick(predictions[i]) ==>
                scores[i] == Some(Earned(predictions[i], r, points))
    {
      var rows := SelectRows(predictions, m);
      RowsOfMatchFacts(predictions, m);
      var written, _ := ScoreGrouped(rows, r, points);
      WriteRows(m, r, written);
      forall i | 0 <= i < |predictions| && predictions[i].matchId == m && ValidPick(predictions[i])
        ensures scores[i] == Some(Earned(predictions[i], r, points))
      {
        DirectIsEarned(predictions[i], r, points);
      }
    }

    /** Updates every entry with a scored pick from the sums over its scored picks. */
    method RecomputeTotals()
      requires |scores| == |predictions|
      modifies this`totals
      ensures totals == old(totals) + RecomputeRows(predictions, scores, old(totals))
      ensures forall e :: e in totals && HasScored(predictions, scores, e) ==>
                Counted(totals[e], predictions, scores, e)
      ensures forall e :: e in totals && !HasScored(predictions, scores, e) ==>
                e in old(totals) && totals[e] == old(totals)[e]
    {
      var sums := GroupTotals(predictions, scores);
      var rows := map e | e in sums && e in totals :: sums[e];
      assert rows == RecomputeRows(predictions, scores, totals);
      totals := totals + rows;
    }

    /** One scoring transaction: the contest starts scoring, every pick of the match is scored, and
        every entry with a scored pick gets the totals over all its scored picks. */
    method ScoreContestMatch(m: Uuid, r: FinalResult)
      requires DistinctIds(predictions) && |scores| == |predictions|
      modifies this
      ensures status == if old(status) == Locked then Scoring else old(status)
      ensures scores == Overlay(old(scores), MatchScores(predictions, m, r, points))
      ensures |scores| == |predictions| && totals == old(totals) + RecomputeRows(predictions, scores, old(totals))
      ensures scoredEvents == old(scoredEvents)
    {
      if status == Locked { status := Scoring; }
      ScorePicks(m, r);
      RecomputeTotals();
    }

    /** How many predictions are not scored yet. */
    method CountPendingPredictions() returns (n: nat)
      ensures n == PendingPredictions(scores)
    {
      n := 0;
      var i := 0;
      while i < |scores|
        invariant 0 <= i <= |scores| && n == PendingPredictions(scores[..i])
      {
        assert scores[..i + 1][..i] == scores[..i];
        if scores[i].None? { n := n + 1; }
        i := i + 1;
      }
      assert scores[..i] == scores;
    }

    /** How many of the contest's matches have no final result. */
    method CountPendingFixtures(matches: seq<Uuid>, finalized: set<Uuid>) returns (n: nat)
      ensures n == PendingFixtures(matches, finalized)
    {
      n := 0;
      var i := 0;
      while i < |matches|
        invariant 0 <= i <= |matches| && n == PendingFixtures(matches[..i], finalized)
      {
        assert matches[..i + 1][..i] == matches[..i];
        if matches[i] !in finalized { n := n + 1; }
        i := i + 1;
      }
      assert matches[..i] == matches;
    }

    /** Completes the contest exactly when every result is final, every prediction is scored and it is
        still scoring. */
    method FinalizeContestIfComplete(matches: seq<Uuid>, finalized: set<Uuid>) returns (completed: bool)
      modifies this`status, this`scoredEvents
      ensures completed <==>
              (forall m :: m in matches ==> m in finalized) && (forall i :: 0 <= i < |scores| ==> scores[i].Some?) &&
              old(status) == Scoring
      ensures status == (if completed then Scored else old(status)) &&
              scoredEvents == old(scoredEvents) + if completed then 1 else 0
    {
      var pendingFixtures := CountPendingFixtures(matches, finalized);
      var pendingPredictions := CountPendingPredictions();
      NothingPending(matches, finalized, scores);
      if pendingFixtures > 0 || pendingPredictions > 0 { return false; }
      completed := status == Scoring;
      if completed { status, scoredEvents := Scored, scoredEvents + 1; }
    }
  }

  /** The transaction's commit and a locked worker's commit write the same rows. */
  lemma CommitIsService(k: Setting, s: State, w: Uuid)
    requires Inv(k, s) && w in s.workers && s.workers[w].Recomputed?
    ensures var m, s' := s.workers[w].m, Next(k, s, Commit(w));
            && m in k.results
            && s'.scores == Overlay(s.scores, MatchScores(k.predictions, m, k.results[m], k.points))
            && s'.totals == s.totals + RecomputeRows(k.predictions, s'.scores, s.totals)
            && s'.status == if s.status == Locked then Scoring else s.status
  {
  }
}
