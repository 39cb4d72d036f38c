/**
 The scoring of one contest as concurrent workers run it, statement by statement. Workers start
 whenever a result event is delivered: in any order, any number of times, after any crash. A
 transaction keeps its writes to itself until it commits; other statements see committed rows and
 the transaction's own writes. Scoring transactions of a contest take its advisory lock first.
 */
module ScoringPipeline {
  import opened Ledger
  import opened Markets
  import opened GroupedScoring
  import Ranking

  datatype ContestStatus = Published | Locked | Scoring | Scored | Settled | Cancelled

  /** What does not change: the predictions in their rows, the matches, their final results, the
      rule set, and whether the lock is taken at all. */
  datatype Setting = Setting(predictions: seq<Prediction>, matches: set<Uuid>, results: map<Uuid, FinalResult>,
                             points: map<Market, int>, useLock: bool)

  /** An entry's aggregate columns. */
  datatype Totals = Totals(pointsX10: int, correct: nat, expert: nat, hard: nat)

  const ZERO := Totals(0, 0, 0, 0)

  datatype Phase =
    | Begun(m: Uuid)
    | Writing(m: Uuid, own: map<nat, Score>)
    | Recomputed(m: Uuid, own: map<nat, Score>, rows: map<Uuid, Totals>)
    | Checking(m: Uuid, fixtures: Option<nat>, predictions: Option<nat>)
    | Finalizing(m: Uuid)

  /** Committed rows, the lock, and the workers in flight. `handled` and `ended` are history: the
      matches for which some worker committed its scoring, or ran its handler to the end. */
  datatype State = State(status: ContestStatus, final: set<Uuid>, scores: seq<Option<Score>>, totals: map<Uuid, Totals>,
                         lock: Option<Uuid>, workers: map<Uuid, Phase>, scoredEvents: nat, handled: set<Uuid>,
                         ended: set<Uuid>)

  predicate WellFormed(k: Setting) {
    k.results.Keys == k.matches && forall p :: p in k.predictions ==> p.matchId in k.matches
  }

  // ---------------------------------------------------------------- aggregates

  function Add(t: Totals, tier: Tier, s: Score): Totals {
    var c := if s.isCorrect then 1 else 0;
    Totals(t.pointsX10 + s.pointsX10, t.correct + c, t.expert + (if tier == EXPERT then c else 0),
           t.hard + (if tier == HARD then c else 0))
  }

  /** The totals of an entry over its scored predictions. */
  function Fold(ps: seq<Prediction>, scores: seq<Option<Score>>, e: Uuid): Totals
    requires |ps| == |scores|
  {
    if ps == [] then ZERO
    else
      var n := |ps| - 1;
      var t := Fold(ps[..n], scores[..n], e);
      if ps[n].entry == e && scores[n].Some? then Add(t, ps[n].tier, scores[n].value) else t
  }

  // ---------------------------------------------------------------- what the columns count

  /** The entry's correct predictions in the given tiers. */
  ghost function CorrectRows(ps: seq<Prediction>, scores: seq<Option<Score>>, e: Uuid, tiers: set<Tier>): set<nat>
    requires |ps| == |scores|
  {
    set i: nat | i < |ps| && ps[i].entry == e && scores[i].Some? && scores[i].value.isCorrect && ps[i].tier in tiers
  }

  /** Row by row, the points of the entry's scored predictions. */
  function PointsOf(ps: seq<Prediction>, scores: seq<Option<Score>>, e: Uuid): (r: seq<int>)
    requires |ps| == |scores|
    ensures |r| == |ps|
  {
    seq(|ps|, i requires 0 <= i < |ps| => if ps[i].entry == e && scores[i].Some? then scores[i].value.pointsX10 else 0)
  }

  const ALL_TIERS := {EASY, MEDIUM, HARD, EXPERT}

  /** The aggregate columns: the sum of the points, and how many predictions are correct, in all, in expert
      slots and in hard slots. */
  ghost predicate Counted(t: Totals, ps: seq<Prediction>, scores: seq<Option<Score>>, e: Uuid)
    requires |ps| == |scores|
  {
    && t.pointsX10 == Ranking.SumSeq(PointsOf(ps, scores, e))
    && t.correct == |CorrectRows(ps, scores, e, ALL_TIERS)|
    && t.expert == |CorrectRows(ps, scores, e, {EXPERT})|
    && t.hard == |CorrectRows(ps, scores, e, {HARD})|
  }

  lemma {:induction false} SumAppend(s: seq<int>, x: int)
    ensures Ranking.SumSeq(s + [x]) == Ranking.SumSeq(s) + x
  {
    if s != [] {
      assert (s + [x])[1..] == s[1..] + [x];
      SumAppend(s[1..], x);
    }
  }

  lemma LastCorrectRow(ps: seq<Prediction>, scores: seq<Option<Score>>, e: Uuid, tiers: set<Tier>)
    requires |ps| == |scores| && ps != []
    ensures var n := |ps| - 1;
            |CorrectRows(ps, scores, e, tiers)| ==
              |CorrectRows(ps[..n], scores[..n], e, tiers)|
              + if ps[n].entry == e && scores[n].Some? && scores[n].value.isCorrect && ps[n].tier in tiers then 1 else 0
  {
    var n := |ps| - 1;
    var before := CorrectRows(ps[..n], scores[..n], e, tiers);
    if ps[n].entry == e && scores[n].Some? && scores[n].value.isCorrect && ps[n].tier in tiers {
      assert CorrectRows(ps, scores, e, tiers) == before + {n};
    } else {
      assert CorrectRows(ps, scores, e, tiers) == before;
    }
  }

  /** The fold counts just that. */
  lemma {:induction false} FoldCounts(ps: seq<Prediction>, scores: seq<Option<Score>>, e: Uuid)
    requires |ps| == |scores|
    ensures Counted(Fold(ps, scores, e), ps, scores, e)
  {
    if ps == [] {
      assert CorrectRows(ps, scores, e, ALL_TIERS) == {} && CorrectRows(ps, scores, e, {EXPERT}) == {};
      assert CorrectRows(ps, scores, e, {HARD}) == {};
    } else {
      var n := |ps| - 1;
      FoldCounts(ps[..n], scores[..n], e);
      LastCorrectRow(ps, scores, e, ALL_TIERS);
      LastCorrectRow(ps, scores, e, {EXPERT});
      LastCorrectRow(ps, scores, e, {HARD});
      var last := PointsOf(ps, scores, e)[n];
      assert PointsOf(ps, scores, e) == PointsOf(ps[..n], scores[..n], e) + [last];
      SumAppend(PointsOf(ps[..n], scores[..n], e), last);
    }
  }

  predicate HasScored(ps: seq<Prediction>, scores: seq<Option<Score>>, e: Uuid)
    requires |ps| == |scores|
  {
    exists i :: 0 <= i < |ps| && ps[i].entry == e && scores[i].Some?
  }

  /** Committed rows overlaid with a transaction's own writes. */
  function Overlay(scores: seq<Option<Score>>, own: map<nat, Score>): (r: seq<Option<Score>>)
    ensures |r| == |scores|
  {
    seq(|scores|, i requires 0 <= i < |scores| => if i in own then Some(own[i]) else scores[i])
  }

  /** The one-statement recompute: a row for every entry that has a scored prediction. */
  function RecomputeRows(ps: seq<Prediction>, scores: seq<Option<Score>>, totals: map<Uuid, Totals>): map<Uuid, Totals>
    requires |ps| == |scores|
  {
    map e | e in totals && HasScored(ps, scores, e) :: Fold(ps, scores, e)
  }

  /** The score of a prediction against its match's final result. */
  function Direct(k: Setting, i: nat): Score
    requires WellFormed(k) && i < |k.predictions|
  {
    assert k.predictions[i] in k.predictions;
    DirectScore(k.predictions[i], k.results[k.predictions[i].matchId], k.points)
  }

  function DirectScores(k: Setting): (r: seq<Option<Score>>)
    requires WellFormed(k)
    ensures |r| == |k.predictions|
  {
    seq(|k.predictions|, i requires 0 <= i < |k.predictions| => Some(Direct(k, i)))
  }

  // ---------------------------------------------------------------- steps

  datatype Step =
    | LockContest
    | FinalizeResult(m: Uuid)
    | Start(w: Uuid, m: Uuid)
    | TakeLock(w: Uuid)
    | WriteGroup(w: Uuid, market: Market, selection: string)
    | Recompute(w: Uuid)
    | Commit(w: Uuid)
    | Crash(w: Uuid)
    | CountFixtures(w: Uuid)
    | CountPredictions(w: Uuid)
    | Conclude(w: Uuid)
    | Finish(w: Uuid)
    | Settle
    | Cancel

  function MatchRows(k: Setting, m: Uuid): set<nat> {
    set i: nat | i < |k.predictions| && k.predictions[i].matchId == m
  }

  /** One bulk update: the rows of a match with one pick. */
  function GroupRows(k: Setting, m: Uuid, market: Market, selection: string): map<nat, Score> {
    map i: nat | i < |k.predictions| && k.predictions[i].matchId == m && k.predictions[i].market == market &&
      k.predictions[i].selection == selection
      :: if m in k.results then DirectScore(k.predictions[i], k.results[m], k.points) else Score(false, 0)
  }

  function Unscored(s: State): set<nat> {
    set i: nat | i < |s.scores| && s.scores[i].None?
  }

  function Release(lock: Option<Uuid>, w: Uuid): Option<Uuid> {
    if lock == Some(w) then None else lock
  }

  function NextOfWorker(k: Setting, s: State, step: Step, w: Uuid): State
    requires w in s.workers && |s.scores| == |k.predictions|
  {
    match (step, s.workers[w])
    case (TakeLock(_), Begun(m)) =>
      if !k.useLock then s.(workers := s.workers[w := Writing(m, map[])])
      else if s.lock.None? then s.(lock := Some(w), workers := s.workers[w := Writing(m, map[])])
      else s
    case (WriteGroup(_, market, selection), Writing(m, own)) =>
      s.(workers := s.workers[w := Writing(m, own + GroupRows(k, m, market, selection))])
    case (Recompute(_), Writing(m, own)) =>
      if own.Keys == MatchRows(k, m) then
        s.(workers := s.workers[w := Recomputed(m, own,
          RecomputeRows(k.predictions, Overlay(s.scores, own), s.totals))])
      else s
    case (Commit(_), Recomputed(m, own, rows)) =>
      s.(status := if s.status == Locked then Scoring else s.status,
         scores := Overlay(s.scores, own), totals := s.totals + rows, lock := Release(s.lock, w),
         handled := s.handled + {m}, workers := s.workers[w := Checking(m, None, None)])
    case (Crash(_), _) => s.(workers := s.workers - {w}, lock := Release(s.lock, w))
    case (CountFixtures(_), Checking(m, None, p)) =>
      s.(workers := s.workers[w := Checking(m, Some(|k.matches - s.final|), p)])
    case (CountPredictions(_), Checking(m, f, None)) =>
      s.(workers := s.workers[w := Checking(m, f, Some(|Unscored(s)|))])
    case (Conclude(_), Checking(m, Some(f), Some(p))) =>
      if f > 0 || p > 0 then s.(workers := s.workers - {w}, ended := s.ended + {m})
      else s.(workers := s.workers[w := Finalizing(m)])
    case (Finish(_), Finalizing(m)) =>
      var s' := s.(workers := s.workers - {w}, ended := s.ended + {m});
      if s.status == Scoring then s'.(status := Scored, scoredEvents := s.scoredEvents + 1) else s'
    case _ => s
  }

  function Next(k: Setting, s: State, step: Step): State
    requires |s.scores| == |k.predictions|
  {
    match step
    case LockContest => if s.status == Published then s.(status := Locked) else s
    case FinalizeResult(m) => if m in k.matches then s.(final := s.final + {m}) else s
    case Start(w, m) =>
      if w !in s.workers && m in s.final && s.status in {Locked, Scoring}
      then s.(workers := s.workers[w := Begun(m)])
      else s
    case Settle => if s.scoredEvents > 0 then s.(status := Settled) else s
    case Cancel => s.(status := Cancelled)
    case _ => if step.w in s.workers then NextOfWorker(k, s, step, step.w) else s
  }

  lemma NextKeepsRowCount(k: Setting, s: State, step: Step)
    requires |s.scores| == |k.predictions|
    ensures |Next(k, s, step).scores| == |k.predictions|
  {
  }

  function Run(k: Setting, s: State, steps: seq<Step>): (r: State)
    requires |s.scores| == |k.predictions|
    ensures |r.scores| == |k.predictions|
    decreases |steps|
  {
    if steps == [] then s
    else
      NextKeepsRowCount(k, s, steps[0]);
      Run(k, Next(k, s, steps[0]), steps[1..])
  }

  /** A published contest with its entries, nothing scored. */
  function Initial(k: Setting, entries: set<Uuid>): (s: State)
    ensures |s.scores| == |k.predictions|
  {
    State(Published, {}, seq(|k.predictions|, i => None), map e | e in entries :: ZERO, None, map[], 0, {}, {})
  }

  // ---------------------------------------------------------------- invariant

  ghost predicate AllFinal(k: Setting, s: State) { k.matches <= s.final }

  ghost predicate AllScored(s: State) { forall i :: 0 <= i < |s.scores| ==> s.scores[i].Some? }

  /** Own writes of a worker on match `m` carry the direct scores of its rows. */
  ghost predicate OwnOk(k: Setting, s: State, m: Uuid, own: map<nat, Score>)
    requires WellFormed(k)
  {
    m in s.final && forall i ::
      i in own ==> i < |k.predictions| && k.predictions[i].matchId == m && own[i] == Direct(k, i)
  }

  ghost predicate PhaseOk(k: Setting, s: State, w: Uuid, ph: Phase)
    requires WellFormed(k) && |s.scores| == |k.predictions|
  {
    match ph
    case Begun(m) => m in s.final
    case Writing(m, own) => s.lock == Some(w) && OwnOk(k, s, m, own)
    case Recomputed(m, own, rows) =>
      && s.lock == Some(w) && OwnOk(k, s, m, own) && own.Keys == MatchRows(k, m)
      && rows == RecomputeRows(k.predictions, Overlay(s.scores, own), s.totals)
    case Checking(m, f, p) =>
      && m in s.handled && (f == Some(0) ==> AllFinal(k, s)) && (p == Some(0) ==> AllScored(s))
    case Finalizing(m) => m in s.handled && AllFinal(k, s) && AllScored(s)
  }

  ghost predicate RowOk(k: Setting, s: State, i: nat)
    requires WellFormed(k) && |s.scores| == |k.predictions| && i < |k.predictions|
  {
    s.scores[i].Some? ==> s.scores[i].value == Direct(k, i) && k.predictions[i].matchId in s.handled
  }

  ghost predicate TotalOk(k: Setting, s: State, e: Uuid)
    requires |s.scores| == |k.predictions|
  {
    e in s.totals ==> s.totals[e] == Fold(k.predictions, s.scores, e)
  }

  ghost predicate HandledOk(k: Setting, s: State, m: Uuid)
    requires |s.scores| == |k.predictions|
  {
    m in s.handled ==>
      m in s.final && forall i :: 0 <= i < |k.predictions| && k.predictions[i].matchId == m ==> s.scores[i].Some?
  }

  ghost predicate RowsOk(k: Setting, s: State) {
    && WellFormed(k) && |s.scores| == |k.predictions| && s.final <= k.matches
    && (forall i :: 0 <= i < |k.predictions| ==> RowOk(k, s, i))
    && (forall e :: TotalOk(k, s, e))
    && (forall m :: HandledOk(k, s, m))
    && s.ended <= s.handled
  }

  ghost predicate WorkersOk(k: Setting, s: State)
    requires WellFormed(k) && |s.scores| == |k.predictions|
  {
    forall w :: w in s.workers ==> PhaseOk(k, s, w, s.workers[w])
  }

  ghost predicate StatusOk(k: Setting, s: State) {
    && (s.handled != {} ==> s.status !in {Published, Locked})
    && (s.workers != map[] ==> s.status != Published)
    && s.scoredEvents <= 1
    && (s.scoredEvents == 1 ==> s.status in {Scored, Settled, Cancelled} && AllFinal(k, s) && AllScored(s))
    && (s.status in {Scored, Settled} ==> s.scoredEvents == 1)
  }

  /** A completeness check of match `m` that has not failed. */
  ghost predicate NotFailed(ph: Phase, m: Uuid) {
    ph.Checking? && ph.m == m ==> ph.fixtures in {None, Some(0)} && ph.predictions in {None, Some(0)}
  }

  /** The match committed last: none of its handlers has given up. */
  ghost predicate IsLast(s: State, m: Uuid) {
    m !in s.ended && forall w :: w in s.workers ==> NotFailed(s.workers[w], m)
  }

  ghost predicate LastOk(k: Setting, s: State) {
    s.handled == k.matches && k.matches != {} && s.status == Scoring ==> exists m :: m in k.matches && IsLast(s, m)
  }

  ghost predicate Inv(k: Setting, s: State) {
    k.useLock && RowsOk(k, s) && WorkersOk(k, s) && StatusOk(k, s) && LastOk(k, s)
  }

  // ---------------------------------------------------------------- the aggregate recompute

  lemma {:induction false} NothingScored(ps: seq<Prediction>, scores: seq<Option<Score>>, e: Uuid)
    requires |ps| == |scores| && !HasScored(ps, scores, e)
    ensures Fold(ps, scores, e) == ZERO
  {
    if ps != [] {
      var n := |ps| - 1;
      assert forall i :: 0 <= i < n ==> ps[..n][i] == ps[i] && scores[..n][i] == scores[i];
      NothingScored(ps[..n], scores[..n], e);
    }
  }

  lemma OverlayKeepsScored(ps: seq<Prediction>, scores: seq<Option<Score>>, own: map<nat, Score>, e: Uuid)
    requires |ps| == |scores| && HasScored(ps, scores, e)
    ensures HasScored(ps, Overlay(scores, own), e)
  {
    var i :| 0 <= i < |ps| && ps[i].entry == e && scores[i].Some?;
    assert Overlay(scores, own)[i].Some?;
  }

  /** The set-based recompute leaves every entry, updated or not, with the fold over its rows. */
  lemma {:induction false} RecomputeIsFold(ps: seq<Prediction>, scores: seq<Option<Score>>, own: map<nat, Score>,
                                           totals: map<Uuid, Totals>, e: Uuid)
    requires |ps| == |scores| && e in totals && totals[e] == Fold(ps, scores, e)
    ensures (totals + RecomputeRows(ps, Overlay(scores, own), totals))[e] == Fold(ps, Overlay(scores, own), e)
    ensures Counted((totals + RecomputeRows(ps, Overlay(scores, own), totals))[e], ps, Overlay(scores, own), e)
  {
    var after := Overlay(scores, own);
    FoldCounts(ps, after, e);
    if !HasScored(ps, after, e) {
      if HasScored(ps, scores, e) { OverlayKeepsScored(ps, scores, own, e); }
      NothingScored(ps, scores, e);
      NothingScored(ps, after, e);
    }
  }

  // ---------------------------------------------------------------- frames

  /** What a step may do to the rows without upsetting a worker that does not hold the lock. */
  ghost predicate Grown(s: State, s': State) {
    && s.final <= s'.final && s.handled <= s'.handled && |s.scores| == |s'.scores|
    && forall i :: 0 <= i < |s.scores| && s.scores[i].Some? ==> s'.scores[i].Some?
  }

  lemma PhaseFrame(k: Setting, s: State, s': State, w: Uuid, ph: Phase)
    requires WellFormed(k) && |s.scores| == |k.predictions| && Grown(s, s') && PhaseOk(k, s, w, ph)
    requires s.lock == Some(w) ==> s'.lock == Some(w) && s'.scores == s.scores && s'.totals == s.totals
    ensures PhaseOk(k, s', w, ph)
  {
  }

  lemma RowsFrame(k: Setting, s: State, s': State)
    requires RowsOk(k, s) && s'.scores == s.scores && s'.totals == s.totals && s'.handled == s.handled
    requires s.final <= s'.final <= k.matches && s'.ended <= s'.handled
    ensures RowsOk(k, s')
  {
    forall i | 0 <= i < |k.predictions| ensures RowOk(k, s', i) { assert RowOk(k, s, i); }
    forall e ensures TotalOk(k, s', e) { assert TotalOk(k, s, e); }
    forall m ensures HandledOk(k, s', m) { assert HandledOk(k, s, m); }
  }

  /** One worker moved (or left); the others keep their phase and, if they hold it, the lock. */
  lemma WorkersFrame(k: Setting, s: State, s': State, w: Uuid)
    requires WellFormed(k) && |s.scores| == |k.predictions| && WorkersOk(k, s) && Grown(s, s')
    requires s'.workers.Keys <= s.workers.Keys + {w} &&
             forall v :: v in s'.workers && v != w ==> s'.workers[v] == s.workers[v]
    requires forall v ::
             v != w && s.lock == Some(v) ==> s'.lock == Some(v) && s'.scores == s.scores && s'.totals == s.totals
    requires w in s'.workers ==> PhaseOk(k, s', w, s'.workers[w])
    ensures WorkersOk(k, s')
  {
  }

  // ---------------------------------------------------------------- steps keep the invariant

  lemma LockKeeps(k: Setting, s: State)
    requires Inv(k, s)
    ensures Inv(k, Next(k, s, LockContest))
  {
    var s' := Next(k, s, LockContest);
    RowsFrame(k, s, s');
    forall w | w in s'.workers ensures PhaseOk(k, s', w, s'.workers[w]) { PhaseFrame(k, s, s', w, s.workers[w]); }
  }

  lemma CloseKeeps(k: Setting, s: State, step: Step)
    requires Inv(k, s) && step in {Settle, Cancel}
    ensures Inv(k, Next(k, s, step))
  {
    var s' := Next(k, s, step);
    RowsFrame(k, s, s');
    forall w | w in s'.workers ensures PhaseOk(k, s', w, s'.workers[w]) { PhaseFrame(k, s, s', w, s.workers[w]); }
  }

  lemma FinalizeKeeps(k: Setting, s: State, m: Uuid)
    requires Inv(k, s)
    ensures Inv(k, Next(k, s, FinalizeResult(m)))
  {
    var s' := Next(k, s, FinalizeResult(m));
    RowsFrame(k, s, s');
    forall w | w in s'.workers ensures PhaseOk(k, s', w, s'.workers[w]) { PhaseFrame(k, s, s', w, s.workers[w]); }
    if s'.handled == k.matches && k.matches != {} && s'.status == Scoring {
      var l :| l in k.matches && IsLast(s, l);
      assert IsLast(s', l);
    }
  }

  /** A worker moved without touching committed rows. */
  lemma LastFrame(k: Setting, s: State, s': State, w: Uuid)
    requires LastOk(k, s) && s'.handled == s.handled && (s'.status == Scoring ==> s.status == Scoring)
    requires s'.workers.Keys <= s.workers.Keys + {w} &&
             forall v :: v in s'.workers && v != w ==> s'.workers[v] == s.workers[v]
    requires forall m ::
             m in k.matches && IsLast(s, m) && s.handled == k.matches && s.status == Scoring && s'.status == Scoring ==>
             m !in s'.ended && (w in s'.workers ==> NotFailed(s'.workers[w], m))
    ensures LastOk(k, s')
  {
  }

  lemma StartKeeps(k: Setting, s: State, w: Uuid, m: Uuid)
    requires Inv(k, s)
    ensures Inv(k, Next(k, s, Start(w, m)))
  {
    var s' := Next(k, s, Start(w, m));
    if s' != s {
      RowsFrame(k, s, s');
      WorkersFrame(k, s, s', w);
      LastFrame(k, s, s', w);
    }
  }

  /** Taking the lock, writing a group and recomputing change only the worker's own view. */
  lemma ScoringStepKeeps(k: Setting, s: State, step: Step)
    requires Inv(k, s) && (step.TakeLock? || step.WriteGroup? || step.Recompute?)
    ensures Inv(k, Next(k, s, step))
  {
    var s', w := Next(k, s, step), step.w;
    if s' != s {
      RowsFrame(k, s, s');
      assert PhaseOk(k, s, w, s.workers[w]);
      WorkersFrame(k, s, s', w);
      LastFrame(k, s, s', w);
    }
  }

  lemma CrashKeeps(k: Setting, s: State, w: Uuid)
    requires Inv(k, s)
    ensures Inv(k, Next(k, s, Crash(w)))
  {
    var s' := Next(k, s, Crash(w));
    if s' != s {
      RowsFrame(k, s, s');
      WorkersFrame(k, s, s', w);
      LastFrame(k, s, s', w);
    }
  }

  lemma CountKeeps(k: Setting, s: State, step: Step)
    requires Inv(k, s) && (step.CountFixtures? || step.CountPredictions?)
    ensures Inv(k, Next(k, s, step))
  {
    var s', w := Next(k, s, step), step.w;
    if s' != s {
      RowsFrame(k, s, s');
      assert PhaseOk(k, s, w, s.workers[w]);
      if |k.matches - s.final| == 0 { assert k.matches - s.final == {}; }
      if |Unscored(s)| == 0 {
        assert Unscored(s) == {};
        forall i | 0 <= i < |s.scores| ensures s.scores[i].Some? { assert i !in Unscored(s); }
      }
      WorkersFrame(k, s, s', w);
      EverythingHandled(k, s);
      LastFrame(k, s, s', w);
    }
  }

  /** Once every match is handled, both completeness counts are zero. */
  lemma EverythingHandled(k: Setting, s: State)
    requires RowsOk(k, s)
    ensures s.handled == k.matches ==> k.matches - s.final == {} && Unscored(s) == {}
  {
    if s.handled == k.matches {
      forall m | m in k.matches ensures m in s.final { assert HandledOk(k, s, m); }
      forall i | 0 <= i < |s.scores| ensures s.scores[i].Some? {
        assert k.predictions[i] in k.predictions;
        assert HandledOk(k, s, k.predictions[i].matchId);
      }
    }
  }

  lemma ConcludeKeeps(k: Setting, s: State, w: Uuid)
    requires Inv(k, s)
    ensures Inv(k, Next(k, s, Conclude(w)))
  {
    var s' := Next(k, s, Conclude(w));
    if s' != s {
      assert PhaseOk(k, s, w, s.workers[w]);
      RowsFrame(k, s, s');
      WorkersFrame(k, s, s', w);
      assert forall m :: IsLast(s, m) ==> NotFailed(s.workers[w], m);
      LastFrame(k, s, s', w);
    }
  }

  lemma FinishKeeps(k: Setting, s: State, w: Uuid)
    requires Inv(k, s)
    ensures Inv(k, Next(k, s, Finish(w)))
  {
    var s' := Next(k, s, Finish(w));
    if s' != s {
      assert PhaseOk(k, s, w, s.workers[w]);
      RowsFrame(k, s, s');
      WorkersFrame(k, s, s', w);
    }
  }

  /** The rows after a commit: every total is again the fold over the scored rows. */
  lemma CommitRows(k: Setting, s: State, w: Uuid)
    requires Inv(k, s) && w in s.workers && s.workers[w].Recomputed?
    ensures RowsOk(k, Next(k, s, Commit(w)))
  {
    var s', ph := Next(k, s, Commit(w)), s.workers[w];
    assert PhaseOk(k, s, w, ph);
    forall i | 0 <= i < |k.predictions| ensures RowOk(k, s', i) { assert RowOk(k, s, i); }
    forall e ensures TotalOk(k, s', e) {
      assert TotalOk(k, s, e);
      if e in s.totals { RecomputeIsFold(k.predictions, s.scores, ph.own, s.totals, e); }
    }
    forall m ensures HandledOk(k, s', m) {
      assert HandledOk(k, s, m);
      if m == ph.m {
        forall i | 0 <= i < |k.predictions| && k.predictions[i].matchId == m
          ensures s'.scores[i].Some?
        {
          assert i in MatchRows(k, m);
        }
      }
    }
  }

  lemma CommitKeeps(k: Setting, s: State, w: Uuid)
    requires Inv(k, s) && w in s.workers && s.workers[w].Recomputed?
    ensures Inv(k, Next(k, s, Commit(w)))
  {
    var s', m := Next(k, s, Commit(w)), s.workers[w].m;
    assert PhaseOk(k, s, w, s.workers[w]);
    CommitRows(k, s, w);
    WorkersFrame(k, s, s', w);
    if s'.handled == k.matches && s'.status == Scoring {
      if m in s.handled {
        assert s'.handled == s.handled;
        var l :| l in k.matches && IsLast(s, l);
        assert IsLast(s', l);
      } else {
        forall v | v in s'.workers ensures NotFailed(s'.workers[v], m) {
          if v != w { assert PhaseOk(k, s, v, s.workers[v]); }
        }
        assert IsLast(s', m);
      }
    }
  }

  lemma StepKeepsInv(k: Setting, s: State, step: Step)
    requires Inv(k, s)
    ensures Inv(k, Next(k, s, step))
  {
    match step
    case LockContest => LockKeeps(k, s);
    case FinalizeResult(m) => FinalizeKeeps(k, s, m);
    case Start(w, m) => StartKeeps(k, s, w, m);
    case TakeLock(_) => ScoringStepKeeps(k, s, step);
    case WriteGroup(_, _, _) => ScoringStepKeeps(k, s, step);
    case Recompute(_) => ScoringStepKeeps(k, s, step);
    case Commit(w) => if w in s.workers && s.workers[w].Recomputed? { CommitKeeps(k, s, w); }
    case Crash(w) => CrashKeeps(k, s, w);
    case CountFixtures(_) => CountKeeps(k, s, step);
    case CountPredictions(_) => CountKeeps(k, s, step);
    case Conclude(w) => ConcludeKeeps(k, s, w);
    case Finish(w) => FinishKeeps(k, s, w);
    case Settle => CloseKeeps(k, s, step);
    case Cancel => CloseKeeps(k, s, step);
  }

  // ---------------------------------------------------------------- every run

  lemma InitialInv(k: Setting, entries: set<Uuid>)
    requires WellFormed(k) && k.useLock
    ensures Inv(k, Initial(k, entries))
  {
    var s := Initial(k, entries);
    forall e | e in s.totals ensures TotalOk(k, s, e) { NothingScored(k.predictions, s.scores, e); }
  }

  lemma {:induction false} RunKeepsInv(k: Setting, s: State, steps: seq<Step>)
    requires Inv(k, s)
    ensures Inv(k, Run(k, s, steps))
    decreases |steps|
  {
    if steps != [] {
      StepKeepsInv(k, s, steps[0]);
      RunKeepsInv(k, Next(k, s, steps[0]), steps[1..]);
    }
  }

  lemma {:induction false} RunKeepsEntries(k: Setting, s: State, steps: seq<Step>)
    requires |s.scores| == |k.predictions| && Inv(k, s)
    ensures Run(k, s, steps).totals.Keys == s.totals.Keys && s.scoredEvents <= Run(k, s, steps).scoredEvents
    decreases |steps|
  {
    if steps != [] {
      var s' := Next(k, s, steps[0]);
      StepKeepsInv(k, s, steps[0]);
      StepKeepsEntries(k, s, steps[0]);
      RunKeepsEntries(k, s', steps[1..]);
    }
  }

  lemma StepKeepsEntries(k: Setting, s: State, step: Step)
    requires |s.scores| == |k.predictions| && Inv(k, s)
    ensures Next(k, s, step).totals.Keys == s.totals.Keys && s.scoredEvents <= Next(k, s, step).scoredEvents
  {
    if step.Commit? && step.w in s.workers && s.workers[step.w].Recomputed? {
      assert PhaseOk(k, s, step.w, s.workers[step.w]);
    }
  }

  /** No lost update: in every state of every interleaving, the aggregates of each entry count its scored
      predictions, and each scored prediction has its direct score. */
  lemma AggregatesAreFolds(k: Setting, entries: set<Uuid>, steps: seq<Step>)
    requires WellFormed(k) && k.useLock
    ensures var s := Run(k, Initial(k, entries), steps);
            && s.totals.Keys == entries
            && (forall e :: e in entries ==> Counted(s.totals[e], k.predictions, s.scores, e))
            && (forall e :: e in entries ==> s.totals[e] == Fold(k.predictions, s.scores, e))
            && forall i :: 0 <= i < |k.predictions| && s.scores[i].Some? ==> s.scores[i].value == Direct(k, i)
  {
    InitialInv(k, entries);
    RunKeepsInv(k, Initial(k, entries), steps);
    RunKeepsEntries(k, Initial(k, entries), steps);
    var s := Run(k, Initial(k, entries), steps);
    forall e | e in entries
      ensures s.totals[e] == Fold(k.predictions, s.scores, e) && Counted(s.totals[e], k.predictions, s.scores, e)
    {
      assert TotalOk(k, s, e);
      FoldCounts(k.predictions, s.scores, e);
    }
    forall i | 0 <= i < |k.predictions| && s.scores[i].Some?
      ensures s.scores[i].value == Direct(k, i)
    {
      assert RowOk(k, s, i);
    }
  }

  /** The lock is held by a worker in the middle of its transaction, if at all. */
  ghost predicate LockOk(s: State) {
    s.lock.Some? ==>
      && s.lock.value in s.workers
      && (s.workers[s.lock.value].Writing? || s.workers[s.lock.value].Recomputed?)
  }

  lemma StepKeepsLock(k: Setting, s: State, step: Step)
    requires |s.scores| == |k.predictions| && LockOk(s)
    ensures LockOk(Next(k, s, step))
  {
  }

  lemma {:induction false} RunKeepsLock(k: Setting, s: State, steps: seq<Step>)
    requires |s.scores| == |k.predictions| && LockOk(s)
    ensures LockOk(Run(k, s, steps))
    decreases |steps|
  {
    if steps != [] {
      StepKeepsLock(k, s, steps[0]);
      RunKeepsLock(k, Next(k, s, steps[0]), steps[1..]);
    }
  }

  /** In every run: neither a crash nor a commit leaves the lock taken. */
  lemma LockIsNeverOrphaned(k: Setting, entries: set<Uuid>, steps: seq<Step>)
    ensures var s := Run(k, Initial(k, entries), steps);
            s.lock.Some? ==>
              && s.lock.value in s.workers
              && (s.workers[s.lock.value].Writing? || s.workers[s.lock.value].Recomputed?)
  {
    RunKeepsLock(k, Initial(k, entries), steps);
  }

  /** Completion is never early and never repeated: it takes every result, every prediction scored
      against it, and so a committed scoring of every match with a prediction. An event that was
      consumed before the lock and is not delivered again therefore blocks it. */
  lemma CompletionNotEarly(k: Setting, entries: set<Uuid>, steps: seq<Step>)
    requires WellFormed(k) && k.useLock
    ensures var s := Run(k, Initial(k, entries), steps);
            && s.scoredEvents <= 1
            && (s.status in {Scored, Settled} ==> s.scoredEvents == 1)
            && (s.scoredEvents == 1 ==> s.final == k.matches && s.scores == DirectScores(k))
            && (s.scoredEvents == 1 ==> forall i :: 0 <= i < |k.predictions| ==> k.predictions[i].matchId in s.handled)
  {
    InitialInv(k, entries);
    RunKeepsInv(k, Initial(k, entries), steps);
    var s := Run(k, Initial(k, entries), steps);
    if s.scoredEvents == 1 {
      forall i | 0 <= i < |k.predictions|
        ensures s.scores[i] == DirectScores(k)[i] && k.predictions[i].matchId in s.handled
      {
        assert RowOk(k, s, i);
      }
    }
  }

  /** Completion is never missed: once a handler of every match has run to its end, one of their
      completeness checks has completed the contest, unless it was cancelled. */
  lemma CompletionNotMissed(k: Setting, entries: set<Uuid>, steps: seq<Step>)
    requires WellFormed(k) && k.useLock && k.matches != {}
    ensures var s := Run(k, Initial(k, entries), steps);
            s.ended == k.matches ==> s.scoredEvents == 1 || s.status == Cancelled
  {
    InitialInv(k, entries);
    RunKeepsInv(k, Initial(k, entries), steps);
    var s := Run(k, Initial(k, entries), steps);
    if s.ended == k.matches {
      forall m | m in s.handled ensures m in k.matches { assert HandledOk(k, s, m); }
      assert s.handled == k.matches;
    }
  }

  lemma {:induction false} RunAppend(k: Setting, s: State, a: seq<Step>, b: seq<Step>)
    requires |s.scores| == |k.predictions|
    ensures Run(k, s, a + b) == Run(k, Run(k, s, a), b)
    decreases |a|
  {
    if a == [] {
      assert a + b == b;
    } else {
      assert (a + b)[1..] == a[1..] + b;
      RunAppend(k, Next(k, s, a[0]), a[1..], b);
    }
  }

  // ---------------------------------------------------------------- completed contests

  ghost predicate ValidPicks(k: Setting, e: Uuid) {
    forall p :: p in k.predictions && p.entry == e ==> ValidPick(p)
  }

  /** The entry's picks that won, in the given tiers. */
  ghost function WinningRows(k: Setting, e: Uuid, tiers: set<Tier>): set<nat>
    requires WellFormed(k)
  {
    set i: nat | i < |k.predictions| && k.predictions[i].entry == e && k.predictions[i].tier in tiers
                 && Won(k.predictions[i], ResultOf(k, i))
  }

  function ResultOf(k: Setting, i: nat): FinalResult
    requires WellFormed(k) && i < |k.predictions|
  {
    assert k.predictions[i] in k.predictions;
    k.results[k.predictions[i].matchId]
  }

  /** Row by row, what the entry's picks earned. */
  function EarnedPoints(k: Setting, e: Uuid): (r: seq<int>)
    requires WellFormed(k)
    ensures |r| == |k.predictions|
  {
    seq(|k.predictions|, i requires 0 <= i < |k.predictions| =>
      if k.predictions[i].entry == e then Earned(k.predictions[i], ResultOf(k, i), k.points).pointsX10 else 0)
  }

  /** The entry's points are the rules' points of exactly its winning picks, and its counts count them. */
  ghost predicate FinalTotals(t: Totals, k: Setting, e: Uuid)
    requires WellFormed(k)
  {
    && t.pointsX10 == Ranking.SumSeq(EarnedPoints(k, e))
    && t.correct == |WinningRows(k, e, ALL_TIERS)|
    && t.expert == |WinningRows(k, e, {EXPERT})|
    && t.hard == |WinningRows(k, e, {HARD})|
  }

  lemma DirectTotals(k: Setting, e: Uuid)
    requires WellFormed(k) && ValidPicks(k, e)
    ensures FinalTotals(Fold(k.predictions, DirectScores(k), e), k, e)
  {
    var ps, scores := k.predictions, DirectScores(k);
    FoldCounts(ps, scores, e);
    forall i | 0 <= i < |ps| && ps[i].entry == e ensures scores[i] == Some(Earned(ps[i], ResultOf(k, i), k.points)) {
      assert ps[i] in ps;
      DirectIsEarned(ps[i], ResultOf(k, i), k.points);
    }
    assert PointsOf(ps, scores, e) == EarnedPoints(k, e);
    SameWinners(k, e, ALL_TIERS);
    SameWinners(k, e, {EXPERT});
    SameWinners(k, e, {HARD});
  }

  lemma SameWinners(k: Setting, e: Uuid, tiers: set<Tier>)
    requires WellFormed(k) && ValidPicks(k, e)
    ensures CorrectRows(k.predictions, DirectScores(k), e, tiers) == WinningRows(k, e, tiers)
  {
    forall i: nat | i < |k.predictions| && k.predictions[i].entry == e
      ensures DirectScores(k)[i] == Some(Earned(k.predictions[i], ResultOf(k, i), k.points))
    {
      assert k.predictions[i] in k.predictions;
      DirectIsEarned(k.predictions[i], ResultOf(k, i), k.points);
    }
  }

  lemma CompletedFolds(k: Setting, entries: set<Uuid>, steps: seq<Step>)
    requires WellFormed(k) && k.useLock && Run(k, Initial(k, entries), steps).scoredEvents == 1
    ensures Run(k, Initial(k, entries), steps).totals ==
            map e | e in entries :: Fold(k.predictions, DirectScores(k), e)
  {
    CompletionNotEarly(k, entries, steps);
    AggregatesAreFolds(k, entries, steps);
  }

  /** Completion is for good. */
  lemma StaysCompleted(k: Setting, entries: set<Uuid>, steps: seq<Step>, later: seq<Step>)
    requires WellFormed(k) && k.useLock && Run(k, Initial(k, entries), steps).scoredEvents == 1
    ensures Run(k, Initial(k, entries), steps + later).scoredEvents == 1
  {
    var s0 := Initial(k, entries);
    RunAppend(k, s0, steps, later);
    InitialInv(k, entries);
    RunKeepsInv(k, s0, steps);
    RunKeepsEntries(k, Run(k, s0, steps), later);
    CompletionNotEarly(k, entries, steps + later);
  }

  /** A completed contest has scored every entry with valid picks by the goals alone: each column is what
      the entry's winning picks add up to. */
  lemma CompletedTotals(k: Setting, entries: set<Uuid>, steps: seq<Step>, e: Uuid)
    requires WellFormed(k) && k.useLock && Run(k, Initial(k, entries), steps).scoredEvents == 1
    requires e in entries && ValidPicks(k, e)
    ensures e in Run(k, Initial(k, entries), steps).totals
    ensures FinalTotals(Run(k, Initial(k, entries), steps).totals[e], k, e)
  {
    CompletedFolds(k, entries, steps);
    DirectTotals(k, e);
  }

  /** Scoring is confluent: whatever the schedule, a completed contest carries for each entry the
      fold of the direct scores of its slip, and no later delivery or re-run changes it. */
  lemma ScoringIsConfluent(k: Setting, entries: set<Uuid>, steps: seq<Step>, later: seq<Step>)
    requires WellFormed(k) && k.useLock && Run(k, Initial(k, entries), steps).scoredEvents == 1
    ensures Run(k, Initial(k, entries), steps).totals == map e | e in entries :: Fold(k.predictions, DirectScores(k), e)
    ensures Run(k, Initial(k, entries), steps + later).totals == Run(k, Initial(k, entries), steps).totals
    ensures forall e :: e in entries && ValidPicks(k, e) ==>
              && e in Run(k, Initial(k, entries), steps + later).totals
              && FinalTotals(Run(k, Initial(k, entries), steps + later).totals[e], k, e)
  {
    CompletedFolds(k, entries, steps);
    StaysCompleted(k, entries, steps, later);
    CompletedFolds(k, entries, steps + later);
    forall e | e in entries && ValidPicks(k, e)
      ensures FinalTotals(Run(k, Initial(k, entries), steps + later).totals[e], k, e)
    {
      CompletedTotals(k, entries, steps + later, e);
    }
  }
}
