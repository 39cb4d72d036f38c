/**
 How many points a slip can be worth: the best-case total shown to administrators bounds every
 accepted slip at every stage of scoring.
 */
module SlipScore {
  import opened Ledger
  import opened Markets
  import opened GroupedScoring
  import opened SlipValidator
  import opened SlipAcceptance
  import opened ScoringPipeline

  datatype MarketRule = MarketRule(market: Market, pointsX10: int)

  // ---------------------------------------------------------------- rule sets

  /** Points by market; of two rules for one market the later one stays. */
  function PointsByMarket(rules: seq<MarketRule>): map<Market, int> {
    if rules == [] then map[]
    else PointsByMarket(rules[..|rules| - 1])[rules[|rules| - 1].market := rules[|rules| - 1].pointsX10]
  }

  /** The best rule of a tier; no rule, or only negative ones, count as zero. */
  function Best(rules: seq<MarketRule>, t: Tier): nat {
    if rules == [] then 0
    else
      var b, last := Best(rules[..|rules| - 1], t), rules[|rules| - 1];
      if MarketTier(last.market) == t && last.pointsX10 > b then last.pointsX10 else b
  }

  lemma {:induction false} BestIsMaximum(rules: seq<MarketRule>, t: Tier)
    ensures forall r :: r in rules && MarketTier(r.market) == t ==> r.pointsX10 <= Best(rules, t)
    ensures Best(rules, t) == 0 || exists r :: r in rules && MarketTier(r.market) == t && r.pointsX10 == Best(rules, t)
  {
    if rules != [] {
      var rest, last := rules[..|rules| - 1], rules[|rules| - 1];
      BestIsMaximum(rest, t);
      assert forall r :: r in rules <==> r in rest || r == last;
    }
  }

  /** The last rule for a market decides, and a market without a rule is not in the table. */
  lemma {:induction false} LastRuleDecides(rules: seq<MarketRule>, m: Market)
    ensures m in PointsByMarket(rules) <==> exists k :: 0 <= k < |rules| && rules[k].market == m
    ensures forall k ::
            0 <= k < |rules| && rules[k].market == m && (forall j :: k < j < |rules| ==> rules[j].market != m) ==>
              m in PointsByMarket(rules) && PointsByMarket(rules)[m] == rules[k].pointsX10
  {
    if rules != [] {
      var n := |rules| - 1;
      LastRuleDecides(rules[..n], m);
      assert forall k :: 0 <= k < n ==> rules[..n][k] == rules[k];
    }
  }

  /** Points per tier times slots per tier, as the contract package sums them. */
  function SlipMaxScoreX10(tierPointsX10: Tier -> int): int {
    Distribution(EASY) * tierPointsX10(EASY) + Distribution(MEDIUM) * tierPointsX10(MEDIUM)
    + Distribution(HARD) * tierPointsX10(HARD) + Distribution(EXPERT) * tierPointsX10(EXPERT)
  }

  /** The same sum with the best rule of each tier. */
  function RuleSetMaximum(rules: seq<MarketRule>): int { SlipMaxScoreX10(t => Best(rules, t)) }

  /** The sum over the first tiers. */
  function FirstTiers(rules: seq<MarketRule>, n: nat): int
    requires n <= |TIERS|
  {
    if n == 0 then 0 else FirstTiers(rules, n - 1) + Best(rules, TIERS[n - 1]) * Distribution(TIERS[n - 1])
  }

  lemma AllTiers(rules: seq<MarketRule>)
    ensures FirstTiers(rules, 4) == RuleSetMaximum(rules)
  {
    assert FirstTiers(rules, 1) == Best(rules, EASY) * 2;
    assert FirstTiers(rules, 2) == FirstTiers(rules, 1) + Best(rules, MEDIUM) * 3;
    assert FirstTiers(rules, 3) == FirstTiers(rules, 2) + Best(rules, HARD) * 3;
  }

  method BestOfTier(rules: seq<MarketRule>, t: Tier) returns (best: int)
    ensures best == Best(rules, t)
  {
    best := 0;
    var j := 0;
    while j < |rules|
      invariant 0 <= j <= |rules| && best == Best(rules[..j], t)
    {
      assert rules[..j + 1][..j] == rules[..j];
      if MarketTier(rules[j].market) == t && rules[j].pointsX10 > best { best := rules[j].pointsX10; }
      j := j + 1;
    }
    assert rules[..j] == rules;
  }

  /** The administrators' figure: the best market of each tier times the slots of that tier. */
  method MaxSlipScore(rules: seq<MarketRule>) returns (total: int)
    ensures total == RuleSetMaximum(rules)
    ensures total == 2 * Best(rules, EASY) + 3 * Best(rules, MEDIUM) + 3 * Best(rules, HARD) + 2 * Best(rules, EXPERT)
  {
    total := 0;
    var i := 0;
    while i < |TIERS|
      invariant 0 <= i <= |TIERS| && total == FirstTiers(rules, i)
    {
      var best := BestOfTier(rules, TIERS[i]);
      total := total + best * Distribution(TIERS[i]);
      i := i + 1;
    }
    AllTiers(rules);
  }

  lemma {:induction false} PointsAtMostBest(rules: seq<MarketRule>, m: Market)
    ensures PointsFor(PointsByMarket(rules), m) <= Best(rules, MarketTier(m))
    ensures m in PointsByMarket(rules) ==> exists r :: r in rules && r.market == m
  {
    if rules != [] {
      var rest := rules[..|rules| - 1];
      PointsAtMostBest(rest, m);
      if m in PointsByMarket(rest) {
        var r :| r in rest && r.market == m;
        assert r in rules;
      }
    }
  }

  // ---------------------------------------------------------------- tiers of an accepted slip

  function CountPicks(ps: seq<SlipPrediction>, t: Tier): nat {
    if ps == [] then 0 else CountPicks(ps[..|ps| - 1], t) + if MarketTier(ps[|ps| - 1].market) == t then 1 else 0
  }

  ghost function PickIds(ps: seq<SlipPrediction>, t: Tier): set<Uuid> {
    set p | p in ps && MarketTier(p.market) == t :: p.slotId
  }

  ghost function TierIds(slots: seq<SlotDefinition>, t: Tier): set<Uuid> {
    set slot | slot in slots && slot.tier == t :: slot.slotId
  }

  lemma PickIdsGrow(ps: seq<SlipPrediction>, p: SlipPrediction, t: Tier)
    requires forall q :: q in ps ==> q.slotId != p.slotId
    ensures |PickIds(ps + [p], t)| == |PickIds(ps, t)| + if MarketTier(p.market) == t then 1 else 0
  {
    assert forall q :: q in ps + [p] <==> q in ps || q == p;
    assert PickIds(ps + [p], t) == PickIds(ps, t) + if MarketTier(p.market) == t then {p.slotId} else {};
  }

  lemma {:induction false} PicksAreIds(ps: seq<SlipPrediction>, t: Tier)
    requires DistinctPicks(ps)
    ensures |PickIds(ps, t)| == CountPicks(ps, t)
  {
    if ps == [] {
      assert PickIds(ps, t) == {};
    } else {
      var rest, last := ps[..|ps| - 1], ps[|ps| - 1];
      LastIsDistinct(ps);
      PicksAreIds(rest, t);
      assert |PickIds(ps, t)| == |PickIds(rest, t)| + (if MarketTier(last.market) == t then 1 else 0) by {
        assert ps == rest + [last];
        PickIdsGrow(rest, last, t);
      }
    }
  }

  lemma TierIdsGrow(slots: seq<SlotDefinition>, slot: SlotDefinition, t: Tier)
    requires slot.slotId !in SlotIds(slots)
    ensures |TierIds(slots + [slot], t)| == |TierIds(slots, t)| + if slot.tier == t then 1 else 0
  {
    assert forall q :: q in slots + [slot] <==> q in slots || q == slot;
    assert TierIds(slots + [slot], t) == TierIds(slots, t) + if slot.tier == t then {slot.slotId} else {};
    assert TierIds(slots, t) <= SlotIds(slots);
  }

  lemma {:induction false} SlotsAreIds(slots: seq<SlotDefinition>, t: Tier)
    requires DistinctSlots(slots)
    ensures |TierIds(slots, t)| == CountTier(slots, t)
  {
    if slots == [] {
      assert TierIds(slots, t) == {};
    } else {
      var rest, last := slots[..|slots| - 1], slots[|slots| - 1];
      LastSlotIsDistinct(slots);
      SlotsAreIds(rest, t);
      assert |TierIds(slots, t)| == |TierIds(rest, t)| + (if last.tier == t then 1 else 0) by {
        assert slots == rest + [last];
        TierIdsGrow(rest, last, t);
      }
    }
  }

  lemma TierSets(slots: seq<SlotDefinition>, ps: seq<SlipPrediction>, t: Tier)
    requires DistinctSlots(slots) && FillsSlots(slots, ps)
    ensures PickIds(ps, t) == TierIds(slots, t)
  {
  }

  /** An accepted slip has as many picks from each tier as the distribution says. */
  lemma AcceptedTiers(slots: seq<SlotDefinition>, ps: seq<SlipPrediction>, t: Tier)
    requires DistinctSlots(slots) && SlipViolations(slots, ps) == []
    ensures CountPicks(ps, t) == Distribution(t)
  {
    AcceptedIff(slots, ps);
    PicksAreIds(ps, t);
    SlotsAreIds(slots, t);
    TierSets(slots, ps, t);
  }

  // ---------------------------------------------------------------- potential under the default points

  function DefaultPointsX10(m: Market): int {
    match m
    case MATCH_WINNER => 50
    case DOUBLE_CHANCE => 50
    case OVER_UNDER_25 => 100
    case BTTS => 100
    case FIRST_HALF_WINNER => 100
    case FIRST_TEAM_TO_SCORE => 100
    case WINNING_MARGIN => 150
    case CLEAN_SHEET => 150
    case EXACT_GOALS => 150
    case CORRECT_SCORE => 325
  }

  function DefaultTierPointsX10(t: Tier): int {
    match t
    case EASY => 50
    case MEDIUM => 100
    case HARD => 150
    case EXPERT => 325
  }

  /** The points of a slip when every pick comes in. */
  function Potential(ps: seq<SlipPrediction>, points: Market -> int): int {
    if ps == [] then 0 else Potential(ps[..|ps| - 1], points) + points(ps[|ps| - 1].market)
  }

  lemma {:induction false} PotentialByTier(ps: seq<SlipPrediction>)
    ensures Potential(ps, DefaultPointsX10) == 50 * CountPicks(ps, EASY) + 100 * CountPicks(ps, MEDIUM) +
            150 * CountPicks(ps, HARD) + 325 * CountPicks(ps, EXPERT)
  {
    if ps != [] {
      PotentialByTier(ps[..|ps| - 1]);
      assert DefaultPointsX10(ps[|ps| - 1].market) == DefaultTierPointsX10(MarketTier(ps[|ps| - 1].market));
    }
  }

  /** Under the default points every accepted slip is worth exactly 150.0. */
  lemma DefaultPotential(slots: seq<SlotDefinition>, ps: seq<SlipPrediction>)
    requires DistinctSlots(slots) && SlipViolations(slots, ps) == []
    ensures Potential(ps, DefaultPointsX10) == 1500 == SlipMaxScoreX10(DefaultTierPointsX10)
  {
    PotentialByTier(ps);
    AcceptedTiers(slots, ps, EASY);
    AcceptedTiers(slots, ps, MEDIUM);
    AcceptedTiers(slots, ps, HARD);
    AcceptedTiers(slots, ps, EXPERT);
  }

  // ---------------------------------------------------------------- the bound at every stage

  function CountEntry(ps: seq<Prediction>, e: Uuid, t: Tier): nat {
    if ps == [] then 0
    else
      CountEntry(ps[..|ps| - 1], e, t)
      + if ps[|ps| - 1].entry == e && MarketTier(ps[|ps| - 1].market) == t then 1 else 0
  }

  /** The prediction rows of an entry, in row order. */
  function RowsOf(ps: seq<Prediction>, e: Uuid): seq<Prediction> {
    if ps == [] then [] else RowsOf(ps[..|ps| - 1], e) + if ps[|ps| - 1].entry == e then [ps[|ps| - 1]] else []
  }

  /** The rows carry the picks of the slip. */
  predicate SamePicks(rows: seq<Prediction>, slip: seq<SlipPrediction>) {
    |rows| == |slip| &&
      forall i :: 0 <= i < |rows| ==> rows[i].market == slip[i].market && rows[i].selection == slip[i].selection
  }

  lemma {:induction false} RowsCount(ps: seq<Prediction>, e: Uuid, t: Tier)
    ensures CountEntry(ps, e, t) == CountEntry(RowsOf(ps, e), e, t)
    ensures forall p :: p in RowsOf(ps, e) ==> p.entry == e
  {
    if ps != [] {
      var rest, last := ps[..|ps| - 1], ps[|ps| - 1];
      RowsCount(rest, e, t);
      if last.entry == e {
        assert RowsOf(ps, e)[..|RowsOf(ps, e)| - 1] == RowsOf(rest, e);
      } else {
        assert RowsOf(ps, e) == RowsOf(rest, e);
      }
    }
  }

  lemma {:induction false} PicksCount(rows: seq<Prediction>, slip: seq<SlipPrediction>, e: Uuid, t: Tier)
    requires SamePicks(rows, slip) && forall p :: p in rows ==> p.entry == e
    ensures CountEntry(rows, e, t) == CountPicks(slip, t)
  {
    if rows != [] {
      assert rows[|rows| - 1] in rows;
      PicksCount(rows[..|rows| - 1], slip[..|slip| - 1], e, t);
    }
  }

  function Times(n: nat, b: int): int { if n == 0 then 0 else Times(n - 1, b) + b }

  /** The entry's rows, each at the best of its tier. */
  function Cap(ps: seq<Prediction>, rules: seq<MarketRule>, e: Uuid): int {
    if ps == [] then 0
    else
      Cap(ps[..|ps| - 1], rules, e)
      + if ps[|ps| - 1].entry == e then Best(rules, MarketTier(ps[|ps| - 1].market)) else 0
  }

  lemma {:induction false} FoldAtMostCap(ps: seq<Prediction>, scores: seq<Option<Score>>,
                                         rules: seq<MarketRule>, e: Uuid)
    requires |ps| == |scores|
    requires forall i ::
             0 <= i < |ps| && scores[i].Some? ==> scores[i].value.pointsX10 <= Best(rules, MarketTier(ps[i].market))
    ensures Fold(ps, scores, e).pointsX10 <= Cap(ps, rules, e)
  {
    if ps != [] { FoldAtMostCap(ps[..|ps| - 1], scores[..|ps| - 1], rules, e); }
  }

  lemma {:induction false} CapByTier(ps: seq<Prediction>, rules: seq<MarketRule>, e: Uuid)
    ensures Cap(ps, rules, e) ==
            Times(CountEntry(ps, e, EASY), Best(rules, EASY)) + Times(CountEntry(ps, e, MEDIUM), Best(rules, MEDIUM))
            + Times(CountEntry(ps, e, HARD), Best(rules, HARD)) + Times(CountEntry(ps, e, EXPERT), Best(rules, EXPERT))
  {
    if ps != [] {
      CapByTier(ps[..|ps| - 1], rules, e);
      OneMoreCount(ps, e, rules, EASY);
      OneMoreCount(ps, e, rules, MEDIUM);
      OneMoreCount(ps, e, rules, HARD);
      OneMoreCount(ps, e, rules, EXPERT);
    }
  }

  lemma OneMoreCount(ps: seq<Prediction>, e: Uuid, rules: seq<MarketRule>, t: Tier)
    requires ps != []
    ensures var last := ps[|ps| - 1];
            Times(CountEntry(ps, e, t), Best(rules, t)) ==
              Times(CountEntry(ps[..|ps| - 1], e, t), Best(rules, t))
              + if last.entry == e && MarketTier(last.market) == t then Best(rules, t) else 0
  {
  }

  lemma CapOfAccepted(ps: seq<Prediction>, rules: seq<MarketRule>, e: Uuid, slots: seq<SlotDefinition>,
                      slip: seq<SlipPrediction>)
    requires DistinctSlots(slots) && SlipViolations(slots, slip) == [] && SamePicks(RowsOf(ps, e), slip)
    ensures Cap(ps, rules, e) == RuleSetMaximum(rules)
  {
    CapByTier(ps, rules, e);
    forall t: Tier ensures CountEntry(ps, e, t) == Distribution(t) {
      RowsCount(ps, e, t);
      PicksCount(RowsOf(ps, e), slip, e, t);
      AcceptedTiers(slots, slip, t);
    }
    TwoAndThree(Best(rules, EASY));
    TwoAndThree(Best(rules, MEDIUM));
    TwoAndThree(Best(rules, HARD));
    TwoAndThree(Best(rules, EXPERT));
  }

  lemma TwoAndThree(b: int)
    ensures Times(2, b) == 2 * b && Times(3, b) == 3 * b
  {
    assert Times(1, b) == b;
  }

  lemma DirectAtMostBest(k: Setting, i: nat, rules: seq<MarketRule>)
    requires WellFormed(k) && i < |k.predictions| && k.points == PointsByMarket(rules)
    ensures Direct(k, i).pointsX10 <= Best(rules, MarketTier(k.predictions[i].market))
  {
    assert k.predictions[i] in k.predictions;
    PointsAtMostBest(rules, k.predictions[i].market);
  }

  /** In every state of every scoring run, for every rule set and any results, an entry with an
      accepted slip has at most the administrators' maximum. */
  lemma TotalAtMostMaximum(k: Setting, rules: seq<MarketRule>, entries: set<Uuid>, steps: seq<Step>, e: Uuid,
                           slots: seq<SlotDefinition>, slip: seq<SlipPrediction>)
    requires WellFormed(k) && k.useLock && e in entries && k.points == PointsByMarket(rules)
    requires DistinctSlots(slots) && SlipViolations(slots, slip) == [] && SamePicks(RowsOf(k.predictions, e), slip)
    ensures var s := ScoringPipeline.Run(k, Initial(k, entries), steps);
            e in s.totals && s.totals[e].pointsX10 <= RuleSetMaximum(rules)
  {
    var s, ps := ScoringPipeline.Run(k, Initial(k, entries), steps), k.predictions;
    AggregatesAreFolds(k, entries, steps);
    forall i | 0 <= i < |ps| && s.scores[i].Some?
      ensures s.scores[i].value.pointsX10 <= Best(rules, MarketTier(ps[i].market))
    {
      DirectAtMostBest(k, i, rules);
    }
    FoldAtMostCap(ps, s.scores, rules, e);
    CapOfAccepted(ps, rules, e, slots, slip);
  }
}
