/**
 The same workers without the advisory lock: a concrete schedule in which two of them score
 different matches of a contest at the same time and one match's points are lost for good.
 */
module ScoringWithoutLock {
  import opened Ledger
  import opened Markets
  import opened GroupedScoring
  import opened ScoringPipeline

  const HOME_WIN := FinalResult(1, 0, 1, 0, HOME)
  const HIT := Score(true, 100)

  /** One entry with a winning pick on each of three matches. */
  function ThreeHits(): seq<Prediction> {
    [Prediction(10, 7, 0, EASY, MATCH_WINNER, "HOME"),
     Prediction(11, 7, 1, EASY, MATCH_WINNER, "HOME"),
     Prediction(12, 7, 2, EASY, MATCH_WINNER, "HOME")]
  }

  function Unlocked(): Setting {
    Setting(ThreeHits(), {0, 1, 2}, map[0 := HOME_WIN, 1 := HOME_WIN, 2 := HOME_WIN], map[MATCH_WINNER := 100], false)
  }

  /** Points of the entry when the given number of picks is scored. */
  function Hits(n: nat): map<Uuid, Totals> { map[7 := Totals(100 * n, n, 0, 0)] }

  const NO_ROWS: seq<Option<Score>> := [None, None, None]
  const ONE_ROW := [Some(HIT), None, None]
  const TWO_ROWS := [Some(HIT), Some(HIT), None]
  const ALL_ROWS := [Some(HIT), Some(HIT), Some(HIT)]

  /** One worker scores match 0 alone; then workers 1 and 2 score matches 1 and 2 and both recompute
      before either commits; then worker 2 completes the contest. */
  function Schedule(): seq<Step> {
    Then(LockContest, FinalizeResult(0), Then(FinalizeResult(1), FinalizeResult(2), AfterOpening()))
  }

  function AfterOpening(): seq<Step> {
    Then(Start(0, 0), TakeLock(0),
      Then(WriteGroup(0, MATCH_WINNER, "HOME"), Recompute(0), Then(Commit(0), Crash(0), Race())))
  }

  function Race(): seq<Step> {
    Then(Start(1, 1), Start(2, 2), Then(TakeLock(1), TakeLock(2),
      Then(WriteGroup(1, MATCH_WINNER, "HOME"), WriteGroup(2, MATCH_WINNER, "HOME"),
        Then(Recompute(1), Recompute(2), Closing()))))
  }

  function Closing(): seq<Step> {
    Then(Commit(1), Commit(2), Then(CountFixtures(2), CountPredictions(2), Then(Conclude(2), Finish(2), [])))
  }

  function Then(a: Step, b: Step, rest: seq<Step>): seq<Step> { [a] + ([b] + rest) }

  // ---------------------------------------------------------------- what the rows become

  lemma GroupOf(m: Uuid)
    requires m < 3
    ensures GroupRows(Unlocked(), m, MATCH_WINNER, "HOME") == map[m as nat := HIT]
    ensures MatchRows(Unlocked(), m) == {m as nat}
  {
  }

  lemma FoldOf(scores: seq<Option<Score>>)
    requires |scores| == 3 && forall i :: 0 <= i < 3 ==> scores[i] in {None, Some(HIT)}
    ensures var n := (if scores[0].Some? then 1 else 0) + (if scores[1].Some? then 1 else 0) +
            (if scores[2].Some? then 1 else 0);
            Fold(ThreeHits(), scores, 7) == Totals(100 * n, n, 0, 0)
  {
    var ps := ThreeHits();
    assert ps[..2][..1] == ps[..1] && scores[..2][..1] == scores[..1];
    assert Fold(ps[..0], scores[..0], 7) == ZERO;
    assert ps[..1][..0] == ps[..0] && scores[..1][..0] == scores[..0];
    var t1 := Fold(ps[..1], scores[..1], 7);
    assert t1 == if scores[0].Some? then Totals(100, 1, 0, 0) else ZERO;
    var t2 := Fold(ps[..2], scores[..2], 7);
    assert t2 == if scores[1].Some? then Add(t1, EASY, HIT) else t1;
  }

  lemma RecomputeOf(scores: seq<Option<Score>>, totals: map<Uuid, Totals>, n: nat)
    requires |scores| == 3 && totals.Keys == {7} && forall i :: 0 <= i < 3 ==> scores[i] in {None, Some(HIT)}
    requires n == (if scores[0].Some? then 1 else 0) + (if scores[1].Some? then 1 else 0) +
             (if scores[2].Some? then 1 else 0)
    requires n > 0
    ensures RecomputeRows(ThreeHits(), scores, totals) == Hits(n)
  {
    FoldOf(scores);
    var i :| 0 <= i < 3 && scores[i].Some?;
    assert ThreeHits()[i].entry == 7;
    assert HasScored(ThreeHits(), scores, 7);
  }

  // ---------------------------------------------------------------- the schedule

  const START := State(Published, {}, NO_ROWS, Hits(0), None, map[], 0, {}, {})
  const OPEN := State(Locked, {0, 1, 2}, NO_ROWS, Hits(0), None, map[], 0, {}, {})
  const ONE_SCORED := State(Scoring, {0, 1, 2}, ONE_ROW, Hits(1), None, map[], 0, {0}, {})

  function Own(m: nat): map<nat, Score> { map[m := HIT] }

  /** Match 0 is scored; workers 1 and 2 are at the given points. */
  function Racing(one: Phase, two: Phase): State { ONE_SCORED.(workers := map[1 := one, 2 := two]) }

  /** All rows are committed, workers 1 and 2 are at the given points. */
  function Committed(one: Phase, two: Phase): State {
    State(Scoring, {0, 1, 2}, ALL_ROWS, Hits(2), None, map[1 := one, 2 := two], 0, {0, 1, 2}, {})
  }

  const COMPLETED := State(Scored, {0, 1, 2}, ALL_ROWS, Hits(2), None, map[1 := Checking(1, None, None)], 1,
    {0, 1, 2}, {2})

  ghost predicate Two(s: State, a: Step, b: Step, t: State) {
    |s.scores| == 3 && Next(Unlocked(), Next(Unlocked(), s, a), b) == t
  }

  lemma Opens()
    ensures Initial(Unlocked(), {7}) == START
    ensures Two(START, LockContest, FinalizeResult(0), OPEN.(final := {0})) &&
            Two(OPEN.(final := {0}), FinalizeResult(1), FinalizeResult(2), OPEN)
  {
  }

  lemma FirstMatchTakesLock()
    ensures Two(OPEN, Start(0, 0), TakeLock(0), OPEN.(workers := map[0 := Writing(0, map[])]))
  {
  }

  lemma FirstMatchWrites()
    ensures Two(OPEN.(workers := map[0 := Writing(0, map[])]), WriteGroup(0, MATCH_WINNER, "HOME"), Recompute(0),
                OPEN.(workers := map[0 := Recomputed(0, Own(0), Hits(1))]))
  {
    GroupOf(0);
    assert map[] + Own(0) == Own(0);
    assert Overlay(NO_ROWS, Own(0)) == ONE_ROW;
    RecomputeOf(ONE_ROW, Hits(0), 1);
  }

  lemma FirstMatchCommits()
    ensures Two(OPEN.(workers := map[0 := Recomputed(0, Own(0), Hits(1))]), Commit(0), Crash(0), ONE_SCORED)
  {
  }

  lemma RaceStarts()
    ensures Two(ONE_SCORED, Start(1, 1), Start(2, 2), Racing(Begun(1), Begun(2)))
    ensures Two(Racing(Begun(1), Begun(2)), TakeLock(1), TakeLock(2), Racing(Writing(1, map[]), Writing(2, map[])))
  {
  }

  lemma FirstRacerWrites(two: Phase)
    ensures Next(Unlocked(), Racing(Writing(1, map[]), two), WriteGroup(1, MATCH_WINNER, "HOME")) ==
            Racing(Writing(1, Own(1)), two)
  {
    GroupOf(1);
    assert map[] + Own(1) == Own(1);
  }

  lemma SecondRacerWrites(one: Phase)
    ensures Next(Unlocked(), Racing(one, Writing(2, map[])), WriteGroup(2, MATCH_WINNER, "HOME")) ==
            Racing(one, Writing(2, Own(2)))
  {
    GroupOf(2);
    assert map[] + Own(2) == Own(2);
  }

  lemma RaceWrites()
    ensures Two(Racing(Writing(1, map[]), Writing(2, map[])), WriteGroup(1, MATCH_WINNER, "HOME"),
            WriteGroup(2, MATCH_WINNER, "HOME"),
                Racing(Writing(1, Own(1)), Writing(2, Own(2))))
  {
    FirstRacerWrites(Writing(2, map[]));
    SecondRacerWrites(Writing(1, Own(1)));
  }

  /** Neither worker sees the other's uncommitted rows: each arrives at two hits. */
  lemma FirstRacerRecomputes(two: Phase)
    ensures Next(Unlocked(), Racing(Writing(1, Own(1)), two), Recompute(1)) ==
            Racing(Recomputed(1, Own(1), Hits(2)), two)
  {
    GroupOf(1);
    assert Overlay(ONE_ROW, Own(1)) == TWO_ROWS;
    RecomputeOf(TWO_ROWS, Hits(1), 2);
  }

  lemma SecondRacerRecomputes(one: Phase)
    ensures Next(Unlocked(), Racing(one, Writing(2, Own(2))), Recompute(2)) ==
            Racing(one, Recomputed(2, Own(2), Hits(2)))
  {
    var other := [Some(HIT), None, Some(HIT)];
    GroupOf(2);
    assert Overlay(ONE_ROW, Own(2)) == other;
    RecomputeOf(other, Hits(1), 2);
  }

  lemma RaceRecomputes()
    ensures Two(Racing(Writing(1, Own(1)), Writing(2, Own(2))), Recompute(1), Recompute(2),
                Racing(Recomputed(1, Own(1), Hits(2)), Recomputed(2, Own(2), Hits(2))))
  {
    FirstRacerRecomputes(Writing(2, Own(2)));
    SecondRacerRecomputes(Recomputed(1, Own(1), Hits(2)));
  }

  lemma RaceCommits()
    ensures Two(Racing(Recomputed(1, Own(1), Hits(2)), Recomputed(2, Own(2), Hits(2))), Commit(1), Commit(2),
                Committed(Checking(1, None, None), Checking(2, None, None)))
  {
  }

  lemma ClosingCounts()
    ensures Two(Committed(Checking(1, None, None), Checking(2, None, None)), CountFixtures(2), CountPredictions(2),
                Committed(Checking(1, None, None), Checking(2, Some(0), Some(0))))
  {
  }

  lemma ClosingFinishes()
    ensures Two(Committed(Checking(1, None, None), Checking(2, Some(0), Some(0))), Conclude(2), Finish(2), COMPLETED)
  {
  }

  lemma RunOne(k: Setting, s: State, a: Step, t: State, rest: seq<Step>)
    requires |s.scores| == |k.predictions| && Next(k, s, a) == t
    ensures |t.scores| == |k.predictions|
    ensures ScoringPipeline.Run(k, s, [a] + rest) == ScoringPipeline.Run(k, t, rest)
  {
  }

  lemma RunTwo(s: State, a: Step, b: Step, t: State, rest: seq<Step>)
    requires Two(s, a, b, t)
    ensures |t.scores| == 3
    ensures ScoringPipeline.Run(Unlocked(), s, Then(a, b, rest)) == ScoringPipeline.Run(Unlocked(), t, rest)
  {
    var middle := Next(Unlocked(), s, a);
    RunOne(Unlocked(), s, a, middle, [b] + rest);
    RunOne(Unlocked(), middle, b, t, rest);
  }

  lemma OpeningRun()
    ensures |Initial(Unlocked(), {7}).scores| == 3
    ensures ScoringPipeline.Run(Unlocked(), Initial(Unlocked(), {7}), Schedule()) ==
            ScoringPipeline.Run(Unlocked(), ONE_SCORED, Race())
  {
    Opens();
    FirstMatchTakesLock();
    FirstMatchWrites();
    FirstMatchCommits();
    RunTwo(START, LockContest, FinalizeResult(0), OPEN.(final := {0}),
      Then(FinalizeResult(1), FinalizeResult(2), AfterOpening()));
    RunTwo(OPEN.(final := {0}), FinalizeResult(1), FinalizeResult(2), OPEN, AfterOpening());
    RunTwo(OPEN, Start(0, 0), TakeLock(0), OPEN.(workers := map[0 := Writing(0, map[])]),
           Then(WriteGroup(0, MATCH_WINNER, "HOME"), Recompute(0), Then(Commit(0), Crash(0), Race())));
    RunTwo(OPEN.(workers := map[0 := Writing(0, map[])]), WriteGroup(0, MATCH_WINNER, "HOME"), Recompute(0),
           OPEN.(workers := map[0 := Recomputed(0, Own(0), Hits(1))]), Then(Commit(0), Crash(0), Race()));
    RunTwo(OPEN.(workers := map[0 := Recomputed(0, Own(0), Hits(1))]), Commit(0), Crash(0), ONE_SCORED, Race());
  }

  lemma RaceRun()
    ensures ScoringPipeline.Run(Unlocked(), ONE_SCORED, Race())
         == ScoringPipeline.Run(Unlocked(),
           Racing(Recomputed(1, Own(1), Hits(2)), Recomputed(2, Own(2), Hits(2))), Closing())
  {
    RaceStarts();
    RaceWrites();
    RaceRecomputes();
    var recompute := Then(Recompute(1), Recompute(2), Closing());
    var write := Then(WriteGroup(1, MATCH_WINNER, "HOME"), WriteGroup(2, MATCH_WINNER, "HOME"), recompute);
    RunTwo(ONE_SCORED, Start(1, 1), Start(2, 2), Racing(Begun(1), Begun(2)), Then(TakeLock(1), TakeLock(2), write));
    RunTwo(Racing(Begun(1), Begun(2)), TakeLock(1), TakeLock(2), Racing(Writing(1, map[]), Writing(2, map[])), write);
    RunTwo(Racing(Writing(1, map[]), Writing(2, map[])), WriteGroup(1, MATCH_WINNER, "HOME"),
      WriteGroup(2, MATCH_WINNER, "HOME"),
           Racing(Writing(1, Own(1)), Writing(2, Own(2))), recompute);
    RunTwo(Racing(Writing(1, Own(1)), Writing(2, Own(2))), Recompute(1), Recompute(2),
           Racing(Recomputed(1, Own(1), Hits(2)), Recomputed(2, Own(2), Hits(2))), Closing());
  }

  lemma ClosingRun()
    ensures ScoringPipeline.Run(Unlocked(), Racing(Recomputed(1, Own(1), Hits(2)), Recomputed(2, Own(2), Hits(2))),
            Closing()) == COMPLETED
  {
    RaceCommits();
    ClosingCounts();
    ClosingFinishes();
    var one := Checking(1, None, None);
    RunTwo(Racing(Recomputed(1, Own(1), Hits(2)), Recomputed(2, Own(2), Hits(2))), Commit(1), Commit(2),
      Committed(one, Checking(2, None, None)),
           Then(CountFixtures(2), CountPredictions(2), Then(Conclude(2), Finish(2), [])));
    RunTwo(Committed(one, Checking(2, None, None)), CountFixtures(2), CountPredictions(2),
      Committed(one, Checking(2, Some(0), Some(0))),
           Then(Conclude(2), Finish(2), []));
    RunTwo(Committed(one, Checking(2, Some(0), Some(0))), Conclude(2), Finish(2), COMPLETED, []);
  }

  lemma ScheduleRun()
    ensures |Initial(Unlocked(), {7}).scores| == 3
    ensures ScoringPipeline.Run(Unlocked(), Initial(Unlocked(), {7}), Schedule()) == COMPLETED
  {
    OpeningRun();
    RaceRun();
    ClosingRun();
  }

  lemma AllHits()
    ensures Fold(ThreeHits(), ALL_ROWS, 7) == Totals(300, 3, 0, 0)
  {
    FoldOf(ALL_ROWS);
  }

  /** Without the lock a contest is completed, with every pick scored as a hit, on the points of two
      of the three picks. */
  lemma LostUpdate()
    ensures |Initial(Unlocked(), {7}).scores| == 3
    ensures ScoringPipeline.Run(Unlocked(), Initial(Unlocked(), {7}), Schedule()) == COMPLETED
    ensures COMPLETED.status == Scored && COMPLETED.scores == ALL_ROWS &&
            COMPLETED.totals == map[7 := Totals(200, 2, 0, 0)]
    ensures Fold(ThreeHits(), ALL_ROWS, 7) == Totals(300, 3, 0, 0)
  {
    ScheduleRun();
    AllHits();
  }
}
