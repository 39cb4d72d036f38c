/**
 Prediction markets: tiers, valid selections and the scorers.
 */
module Markets {
  import opened Ledger

  datatype Tier = EASY | MEDIUM | HARD | EXPERT

  datatype Market =
    | MATCH_WINNER | DOUBLE_CHANCE
    | OVER_UNDER_25 | BTTS | FIRST_HALF_WINNER | FIRST_TEAM_TO_SCORE
    | WINNING_MARGIN | CLEAN_SHEET | EXACT_GOALS
    | CORRECT_SCORE

  datatype FirstToScore = HOME | AWAY | NONE

  datatype FinalResult = FinalResult(homeGoals: nat, awayGoals: nat, htHomeGoals: nat, htAwayGoals: nat,
                                     firstToScore: FirstToScore)

  datatype Score = Score(isCorrect: bool, pointsX10: int)

  function MarketTier(m: Market): Tier {
    match m
    case MATCH_WINNER => EASY
    case DOUBLE_CHANCE => EASY
    case OVER_UNDER_25 => MEDIUM
    case BTTS => MEDIUM
    case FIRST_HALF_WINNER => MEDIUM
    case FIRST_TEAM_TO_SCORE => MEDIUM
    case WINNING_MARGIN => HARD
    case CLEAN_SHEET => HARD
    case EXACT_GOALS => HARD
    case CORRECT_SCORE => EXPERT
  }

  /** The contract package's second table: the markets of each tier. */
  function MarketsByTier(t: Tier): seq<Market> {
    match t
    case EASY => [MATCH_WINNER, DOUBLE_CHANCE]
    case MEDIUM => [OVER_UNDER_25, BTTS, FIRST_HALF_WINNER, FIRST_TEAM_TO_SCORE]
    case HARD => [WINNING_MARGIN, CLEAN_SHEET, EXACT_GOALS]
    case EXPERT => [CORRECT_SCORE]
  }

  /** Both tables agree: every market is listed, under its tier only. */
  lemma TiersAgree(m: Market, t: Tier)
    ensures m in MarketsByTier(t) <==> MarketTier(m) == t
  {
    match t
    case EASY => assert m in MarketsByTier(t) <==> m == MATCH_WINNER || m == DOUBLE_CHANCE;
    case MEDIUM =>
      assert m in MarketsByTier(t) <==>
             m == OVER_UNDER_25 || m == BTTS || m == FIRST_HALF_WINNER || m == FIRST_TEAM_TO_SCORE;
    case HARD => assert m in MarketsByTier(t) <==> m == WINNING_MARGIN || m == CLEAN_SHEET || m == EXACT_GOALS;
    case EXPERT => assert m in MarketsByTier(t) <==> m == CORRECT_SCORE;
  }

  function MarketName(m: Market): string {
    match m
    case MATCH_WINNER => "MATCH_WINNER"
    case DOUBLE_CHANCE => "DOUBLE_CHANCE"
    case OVER_UNDER_25 => "OVER_UNDER_25"
    case BTTS => "BTTS"
    case FIRST_HALF_WINNER => "FIRST_HALF_WINNER"
    case FIRST_TEAM_TO_SCORE => "FIRST_TEAM_TO_SCORE"
    case WINNING_MARGIN => "WINNING_MARGIN"
    case CLEAN_SHEET => "CLEAN_SHEET"
    case EXACT_GOALS => "EXACT_GOALS"
    case CORRECT_SCORE => "CORRECT_SCORE"
  }

  // ---------------------------------------------------------------- selections

  predicate IsDigit(c: char) { '0' <= c <= '9' }

  /** The selections each market accepts. */
  predicate IsValidSelection(m: Market, s: string) {
    match m
    case MATCH_WINNER => s in ["HOME", "DRAW", "AWAY"]
    case DOUBLE_CHANCE => s in ["HOME_OR_DRAW", "AWAY_OR_DRAW", "HOME_OR_AWAY"]
    case OVER_UNDER_25 => s in ["OVER", "UNDER"]
    case BTTS => s in ["YES", "NO"]
    case FIRST_HALF_WINNER => s in ["HOME", "DRAW", "AWAY"]
    case FIRST_TEAM_TO_SCORE => s in ["HOME", "AWAY", "NO_GOAL"]
    case WINNING_MARGIN => s in ["HOME_BY_1", "HOME_BY_2", "HOME_BY_3_PLUS", "DRAW", "AWAY_BY_1", "AWAY_BY_2",
      "AWAY_BY_3_PLUS"]
    case CLEAN_SHEET => s in ["HOME", "AWAY", "BOTH", "NONE"]
    case EXACT_GOALS => s in ["0", "1", "2", "3", "4", "5_PLUS"]
    case CORRECT_SCORE => |s| == 3 && IsDigit(s[0]) && s[1] == '-' && IsDigit(s[2])
  }

  // ---------------------------------------------------------------- scorers

  function DigitChar(d: nat): char
    requires d < 10
  {
    (d as char + '0')
  }

  /** The decimal text of a number. */
  function NatText(n: nat): string {
    if n < 10 then [DigitChar(n)] else NatText(n / 10) + [DigitChar(n % 10)]
  }

  function Outcome(h: nat, a: nat): string {
    if h > a then "HOME" else if h < a then "AWAY" else "DRAW"
  }

  function SideText(f: FirstToScore): string {
    match f
    case HOME => "HOME"
    case AWAY => "AWAY"
    case NONE => "NONE"
  }

  function Margin(h: nat, a: nat): string {
    if h == a then "DRAW"
    else
      var side, margin := if h > a then "HOME" else "AWAY", if h > a then h - a else a - h;
      side + "_BY_" + (if margin >= 3 then "3_PLUS" else NatText(margin))
  }

  function CleanSheet(h: nat, a: nat): string {
    if a == 0 && h == 0 then "BOTH" else if a == 0 then "HOME" else if h == 0 then "AWAY" else "NONE"
  }

  predicate IsCorrect(m: Market, s: string, r: FinalResult) {
    match m
    case MATCH_WINNER => s == Outcome(r.homeGoals, r.awayGoals)
    case DOUBLE_CHANCE =>
      var o := Outcome(r.homeGoals, r.awayGoals);
      if s == "HOME_OR_DRAW" then o != "AWAY"
      else if s == "AWAY_OR_DRAW" then o != "HOME"
      else if s == "HOME_OR_AWAY" then o != "DRAW"
      else false
    case OVER_UNDER_25 =>
      if s == "OVER" then r.homeGoals + r.awayGoals >= 3
      else if s == "UNDER" then r.homeGoals + r.awayGoals <= 2 else false
    case BTTS =>
      if s == "YES" then r.homeGoals > 0 && r.awayGoals > 0
      else if s == "NO" then !(r.homeGoals > 0 && r.awayGoals > 0) else false
    case FIRST_HALF_WINNER => s == Outcome(r.htHomeGoals, r.htAwayGoals)
    case FIRST_TEAM_TO_SCORE => (if s == "NO_GOAL" then "NONE" else s) == SideText(r.firstToScore)
    case WINNING_MARGIN => s == Margin(r.homeGoals, r.awayGoals)
    case CLEAN_SHEET => s == CleanSheet(r.homeGoals, r.awayGoals)
    case EXACT_GOALS => s == (if r.homeGoals + r.awayGoals >= 5 then "5_PLUS" else NatText(r.homeGoals + r.awayGoals))
    case CORRECT_SCORE => s == NatText(r.homeGoals) + "-" + NatText(r.awayGoals)
  }

  function ScorePrediction(m: Market, s: string, r: FinalResult, pointsX10: int): Score {
    var ok := IsCorrect(m, s, r);
    Score(ok, if ok then pointsX10 else 0)
  }

  /** The selections of a market that win, listed from the goals alone. */
  function Winners(m: Market, r: FinalResult): seq<string> {
    var (h, a) := (r.homeGoals, r.awayGoals);
    match m
    case MATCH_WINNER => if h > a then ["HOME"] else if h == a then ["DRAW"] else ["AWAY"]
    case DOUBLE_CHANCE =>
      if h > a then ["HOME_OR_DRAW", "HOME_OR_AWAY"]
      else if h == a then ["HOME_OR_DRAW", "AWAY_OR_DRAW"]
      else ["AWAY_OR_DRAW", "HOME_OR_AWAY"]
    case OVER_UNDER_25 => if h + a >= 3 then ["OVER"] else ["UNDER"]
    case BTTS => if h > 0 && a > 0 then ["YES"] else ["NO"]
    case FIRST_HALF_WINNER =>
      if r.htHomeGoals > r.htAwayGoals then ["HOME"] else if r.htHomeGoals == r.htAwayGoals then ["DRAW"] else ["AWAY"]
    case FIRST_TEAM_TO_SCORE =>
      if r.firstToScore == HOME then ["HOME"] else if r.firstToScore == AWAY then ["AWAY"] else ["NO_GOAL"]
    case WINNING_MARGIN =>
      if h == a then ["DRAW"]
      else if h == a + 1 then ["HOME_BY_1"] else if h == a + 2 then ["HOME_BY_2"]
      else if h >= a + 3 then ["HOME_BY_3_PLUS"]
      else if a == h + 1 then ["AWAY_BY_1"] else if a == h + 2 then ["AWAY_BY_2"] else ["AWAY_BY_3_PLUS"]
    case CLEAN_SHEET =>
      if a > 0 && h > 0 then ["NONE"] else if a > 0 then ["AWAY"] else if h > 0 then ["HOME"] else ["BOTH"]
    case EXACT_GOALS =>
      if h + a == 0 then ["0"] else if h + a == 1 then ["1"] else if h + a == 2 then ["2"]
      else if h + a == 3 then ["3"] else if h + a == 4 then ["4"] else ["5_PLUS"]
    case CORRECT_SCORE => if h <= 9 && a <= 9 then [[DigitChar(h), '-', DigitChar(a)]] else []
  }

  lemma SmallNumbers(n: nat)
    requires n < 5
    ensures NatText(n) == ["0", "1", "2", "3", "4"][n]
  {
  }

  lemma MarginWinner(h: nat, a: nat)
    ensures Winners(WINNING_MARGIN, FinalResult(h, a, 0, 0, NONE)) == [Margin(h, a)]
  {
    SmallNumbers(1);
    SmallNumbers(2);
    assert "HOME" + "_BY_" + "1" == "HOME_BY_1" && "HOME" + "_BY_" + "2" == "HOME_BY_2";
    assert "AWAY" + "_BY_" + "1" == "AWAY_BY_1" && "AWAY" + "_BY_" + "2" == "AWAY_BY_2";
    assert "HOME" + "_BY_" + "3_PLUS" == "HOME_BY_3_PLUS" && "AWAY" + "_BY_" + "3_PLUS" == "AWAY_BY_3_PLUS";
  }

  lemma CorrectScoreWinner(s: string, h: nat, a: nat)
    ensures IsValidSelection(CORRECT_SCORE, s) && s == NatText(h) + "-" + NatText(a) <==>
            h <= 9 && a <= 9 && s == [DigitChar(h), '-', DigitChar(a)]
  {
  }

  /** For every market and every result, the valid selections that score are exactly the winners:
      one of them (two for double chance), and none only for a correct score above nine goals. */
  lemma WinnersAreExact(m: Market, s: string, r: FinalResult)
    ensures IsValidSelection(m, s) && IsCorrect(m, s, r) <==> s in Winners(m, r)
    ensures |Winners(m, r)| == if m == DOUBLE_CHANCE then 2
                               else if m == CORRECT_SCORE && (r.homeGoals > 9 || r.awayGoals > 9) then 0 else 1
  {
    match m
    case WINNING_MARGIN => MarginWinner(r.homeGoals, r.awayGoals);
    case EXACT_GOALS => if r.homeGoals + r.awayGoals < 5 { SmallNumbers(r.homeGoals + r.awayGoals); }
    case CORRECT_SCORE => CorrectScoreWinner(s, r.homeGoals, r.awayGoals);
    case _ =>
  }

  /** What a pick earns: all of the market's points if it is a winner, and nothing otherwise. */
  lemma PickEarns(m: Market, s: string, r: FinalResult, pointsX10: int)
    requires IsValidSelection(m, s)
    ensures ScorePrediction(m, s, r, pointsX10).isCorrect <==> s in Winners(m, r)
    ensures ScorePrediction(m, s, r, pointsX10).pointsX10 == if s in Winners(m, r) then pointsX10 else 0
  {
    WinnersAreExact(m, s, r);
  }

  /** A selection the stored schema would refuse scores only as the text of a final score above nine goals,
      or as the stored word for a match without goals. */
  lemma InvalidSelectionScores(m: Market, s: string, r: FinalResult)
    requires !IsValidSelection(m, s)
    ensures IsCorrect(m, s, r) <==>
            || (m == FIRST_TEAM_TO_SCORE && s == "NONE" && r.firstToScore == NONE)
            || (m == CORRECT_SCORE && (r.homeGoals > 9 || r.awayGoals > 9)
                && s == NatText(r.homeGoals) + "-" + NatText(r.awayGoals))
  {
    match m
    case WINNING_MARGIN => MarginWinner(r.homeGoals, r.awayGoals);
    case EXACT_GOALS => if r.homeGoals + r.awayGoals < 5 { SmallNumbers(r.homeGoals + r.awayGoals); }
    case CORRECT_SCORE => CorrectScoreWinner(s, r.homeGoals, r.awayGoals);
    case _ =>
  }

  /** A result under which the selection wins, for the markets with more than three selections. */
  function MarginResult(s: string): FinalResult {
    if s == "HOME_BY_1" then FinalResult(1, 0, 0, 0, HOME)
    else if s == "HOME_BY_2" then FinalResult(2, 0, 0, 0, HOME)
    else if s == "HOME_BY_3_PLUS" then FinalResult(3, 0, 0, 0, HOME)
    else if s == "AWAY_BY_1" then FinalResult(0, 1, 0, 0, AWAY)
    else if s == "AWAY_BY_2" then FinalResult(0, 2, 0, 0, AWAY)
    else if s == "AWAY_BY_3_PLUS" then FinalResult(0, 3, 0, 0, AWAY)
    else FinalResult(0, 0, 0, 0, NONE)
  }

  function GoalsResult(s: string): FinalResult {
    var n := if s == "1" then 1 else if s == "2" then 2 else if s == "3" then 3 else if s == "4" then 4
             else if s == "5_PLUS" then 5 else 0;
    FinalResult(n, 0, 0, 0, if n == 0 then NONE else HOME)
  }

  function DigitValue(c: char): nat
    requires IsDigit(c)
  {
    (c - '0') as nat
  }

  function WinningResult(m: Market, s: string): FinalResult
    requires IsValidSelection(m, s)
  {
    match m
    case MATCH_WINNER =>
      if s == "HOME" then FinalResult(1, 0, 0, 0, HOME)
      else if s == "AWAY" then FinalResult(0, 1, 0, 0, AWAY) else FinalResult(0, 0, 0, 0, NONE)
    case DOUBLE_CHANCE => if s == "AWAY_OR_DRAW" then FinalResult(0, 1, 0, 0, AWAY) else FinalResult(1, 0, 0, 0, HOME)
    case OVER_UNDER_25 => if s == "OVER" then FinalResult(3, 0, 0, 0, HOME) else FinalResult(0, 0, 0, 0, NONE)
    case BTTS => if s == "YES" then FinalResult(1, 1, 0, 0, HOME) else FinalResult(0, 0, 0, 0, NONE)
    case FIRST_HALF_WINNER =>
      if s == "HOME" then FinalResult(1, 0, 1, 0, HOME)
      else if s == "AWAY" then FinalResult(0, 1, 0, 1, AWAY) else FinalResult(0, 0, 0, 0, NONE)
    case FIRST_TEAM_TO_SCORE =>
      if s == "HOME" then FinalResult(1, 0, 0, 0, HOME)
      else if s == "AWAY" then FinalResult(0, 1, 0, 0, AWAY) else FinalResult(0, 0, 0, 0, NONE)
    case WINNING_MARGIN => MarginResult(s)
    case CLEAN_SHEET =>
      if s == "HOME" then FinalResult(1, 0, 0, 0, HOME)
      else if s == "AWAY" then FinalResult(0, 1, 0, 0, AWAY)
      else if s == "NONE" then FinalResult(1, 1, 0, 0, HOME) else FinalResult(0, 0, 0, 0, NONE)
    case EXACT_GOALS => GoalsResult(s)
    case CORRECT_SCORE =>
      var h, a := DigitValue(s[0]), DigitValue(s[2]);
      FinalResult(h, a, 0, 0, if h > 0 then HOME else if a > 0 then AWAY else NONE)
  }

  /** The valid selections of a market are exactly those that win under some result. */
  lemma SelectionsCanWin(m: Market, s: string)
    ensures IsValidSelection(m, s) <==> exists r :: s in Winners(m, r)
  {
    if IsValidSelection(m, s) {
      if m == CORRECT_SCORE { assert s == [s[0], '-', s[2]]; }
      assert s in Winners(m, WinningResult(m, s));
    } else {
      forall r ensures s !in Winners(m, r) { WinnersAreExact(m, s, r); }
    }
  }
}
