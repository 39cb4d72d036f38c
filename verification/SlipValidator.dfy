/**
 Slip validation: a contest has ten slots, each pinned to a tier; a slip must fill every slot with
 one pick from a market of that tier.
 */
module SlipValidator {
  import opened Ledger
  import opened Markets

  datatype SlotDefinition = SlotDefinition(slotId: Uuid, tier: Tier)

  datatype SlipPrediction = SlipPrediction(slotId: Uuid, market: Market, selection: string)

  datatype Violation =
    | WrongCount
    | UnknownSlot(slotId: Uuid)
    | DuplicateSlot(slotId: Uuid)
    | MissingSlot(slotId: Uuid)
    | MarketTierMismatch(slotId: Uuid)
    | InvalidSelection(slotId: Uuid)
    | BadSlotConfig

  const TOTAL_SLOTS: nat := 10

  const TIERS := [EASY, MEDIUM, HARD, EXPERT]

  function Distribution(t: Tier): nat {
    match t
    case EASY => 2
    case MEDIUM => 3
    case HARD => 3
    case EXPERT => 2
  }

  function CountTier(slots: seq<SlotDefinition>, t: Tier): nat {
    if slots == [] then 0 else CountTier(slots[..|slots| - 1], t) + if slots[|slots| - 1].tier == t then 1 else 0
  }

  predicate Balanced(slots: seq<SlotDefinition>) {
    |slots| == TOTAL_SLOTS && forall t: Tier :: CountTier(slots, t) == Distribution(t)
  }

  predicate DistinctSlots(slots: seq<SlotDefinition>) {
    forall i, j :: 0 <= i < j < |slots| ==> slots[i].slotId != slots[j].slotId
  }

  // ---------------------------------------------------------------- what the validator reports

  /** Slots by id; of two slots with one id the later one stays. */
  function SlotById(slots: seq<SlotDefinition>): map<Uuid, SlotDefinition> {
    if slots == [] then map[] else SlotById(slots[..|slots| - 1])[slots[|slots| - 1].slotId := slots[|slots| - 1]]
  }

  /** The known slots that some prediction names. */
  function Seen(byId: map<Uuid, SlotDefinition>, ps: seq<SlipPrediction>): set<Uuid> {
    set p | p in ps && p.slotId in byId :: p.slotId
  }

  function PickViolations(slot: SlotDefinition, p: SlipPrediction): seq<Violation> {
    (if MarketTier(p.market) != slot.tier then [MarketTierMismatch(p.slotId)] else [])
    + (if !IsValidSelection(p.market, p.selection) then [InvalidSelection(p.slotId)] else [])
  }

  function OneViolation(byId: map<Uuid, SlotDefinition>, seen: set<Uuid>, p: SlipPrediction): seq<Violation> {
    if p.slotId !in byId then [UnknownSlot(p.slotId)]
    else if p.slotId in seen then [DuplicateSlot(p.slotId)]
    else PickViolations(byId[p.slotId], p)
  }

  function PredictionViolations(byId: map<Uuid, SlotDefinition>, ps: seq<SlipPrediction>): seq<Violation> {
    if ps == [] then []
    else
      var rest := ps[..|ps| - 1];
      PredictionViolations(byId, rest) + OneViolation(byId, Seen(byId, rest), ps[|ps| - 1])
  }

  function MissingViolations(slots: seq<SlotDefinition>, seen: set<Uuid>): seq<Violation> {
    if slots == [] then []
    else
      var slot := slots[|slots| - 1];
      MissingViolations(slots[..|slots| - 1], seen) + if slot.slotId in seen then [] else [MissingSlot(slot.slotId)]
  }

  function SlipViolations(slots: seq<SlotDefinition>, ps: seq<SlipPrediction>): seq<Violation> {
    if !Balanced(slots) then [BadSlotConfig]
    else if |ps| != TOTAL_SLOTS then [WrongCount]
    else
      var byId := SlotById(slots);
      PredictionViolations(byId, ps) + MissingViolations(slots, Seen(byId, ps))
  }

  // ---------------------------------------------------------------- the validator

  method ValidateSlotConfiguration(slots: seq<SlotDefinition>) returns (violations: seq<Violation>)
    ensures violations == if Balanced(slots) then [] else [BadSlotConfig]
  {
    var counts := map[EASY := 0, MEDIUM := 0, HARD := 0, EXPERT := 0];
    forall t: Tier ensures t in counts && counts[t] == 0 {
      match t
      case EASY =>
      case MEDIUM =>
      case HARD =>
      case EXPERT =>
    }
    var i := 0;
    while i < |slots|
      invariant 0 <= i <= |slots|
      invariant counts.Keys == {EASY, MEDIUM, HARD, EXPERT}
      invariant forall t: Tier :: t in counts && counts[t] == CountTier(slots[..i], t)
    {
      assert slots[..i + 1][..i] == slots[..i];
      counts := counts[slots[i].tier := counts[slots[i].tier] + 1];
      i := i + 1;
    }
    assert slots[..i] == slots;
    var bad, j := [], 0;
    while j < |TIERS|
      invariant 0 <= j <= |TIERS|
      invariant bad == [] <==> forall n :: 0 <= n < j ==> counts[TIERS[n]] == Distribution(TIERS[n])
    {
      if counts[TIERS[j]] != Distribution(TIERS[j]) { bad := bad + [TIERS[j]]; }
      j := j + 1;
    }
    EveryTier(slots);
    violations := if |slots| != TOTAL_SLOTS || |bad| > 0 then [BadSlotConfig] else [];
  }

  lemma EveryTier(slots: seq<SlotDefinition>)
    ensures Balanced(slots) <==>
            |slots| == TOTAL_SLOTS && forall n :: 0 <= n < 4 ==> CountTier(slots, TIERS[n]) == Distribution(TIERS[n])
  {
    if forall n :: 0 <= n < 4 ==> CountTier(slots, TIERS[n]) == Distribution(TIERS[n]) {
      forall t: Tier ensures CountTier(slots, t) == Distribution(t) {
        assert TIERS[0] == EASY && TIERS[1] == MEDIUM && TIERS[2] == HARD && TIERS[3] == EXPERT;
      }
    }
  }

  method IndexSlots(slots: seq<SlotDefinition>) returns (byId: map<Uuid, SlotDefinition>)
    ensures byId == SlotById(slots)
  {
    byId := map[];
    var i := 0;
    while i < |slots|
      invariant 0 <= i <= |slots| && byId == SlotById(slots[..i])
    {
      assert slots[..i + 1][..i] == slots[..i];
      byId := byId[slots[i].slotId := slots[i]];
      i := i + 1;
    }
    assert slots[..i] == slots;
  }

  lemma NextPrediction(byId: map<Uuid, SlotDefinition>, ps: seq<SlipPrediction>, i: nat)
    requires i < |ps|
    ensures PredictionViolations(byId, ps[..i + 1]) ==
            PredictionViolations(byId, ps[..i]) + OneViolation(byId, Seen(byId, ps[..i]), ps[i])
    ensures Seen(byId, ps[..i + 1]) == if ps[i].slotId in byId then Seen(byId, ps[..i]) + {ps[i].slotId}
            else Seen(byId, ps[..i])
  {
    assert ps[..i + 1] == ps[..i] + [ps[i]] && ps[..i + 1][..i] == ps[..i];
    SeenGrows(byId, ps[..i], ps[i]);
  }

  method CheckPredictions(byId: map<Uuid, SlotDefinition>, ps: seq<SlipPrediction>)
    returns (violations: seq<Violation>, seen: set<Uuid>)
    ensures violations == PredictionViolations(byId, ps) && seen == Seen(byId, ps)
  {
    violations, seen := [], {};
    var i := 0;
    while i < |ps|
      invariant 0 <= i <= |ps|
      invariant seen == Seen(byId, ps[..i])
      invariant violations == PredictionViolations(byId, ps[..i])
    {
      var p := ps[i];
      NextPrediction(byId, ps, i);
      i := i + 1;
      if p.slotId !in byId {
        violations := violations + [UnknownSlot(p.slotId)];
        continue;
      }
      if p.slotId in seen {
        violations := violations + [DuplicateSlot(p.slotId)];
        continue;
      }
      ghost var before := violations;
      seen := seen + {p.slotId};
      if MarketTier(p.market) != byId[p.slotId].tier { violations := violations + [MarketTierMismatch(p.slotId)]; }
      if !IsValidSelection(p.market, p.selection) { violations := violations + [InvalidSelection(p.slotId)]; }
      assert violations == before + PickViolations(byId[p.slotId], p);
    }
    assert ps[..i] == ps;
  }

  lemma SeenGrows(byId: map<Uuid, SlotDefinition>, ps: seq<SlipPrediction>, p: SlipPrediction)
    ensures Seen(byId, ps + [p]) == if p.slotId in byId then Seen(byId, ps) + {p.slotId} else Seen(byId, ps)
  {
  }

  method ValidateSlip(slots: seq<SlotDefinition>, ps: seq<SlipPrediction>) returns (violations: seq<Violation>)
    ensures violations == SlipViolations(slots, ps)
  {
    violations := ValidateSlotConfiguration(slots);
    if |violations| > 0 { return; }
    if |ps| != TOTAL_SLOTS {
      violations := violations + [WrongCount];
      return;
    }
    var byId := IndexSlots(slots);
    var seen;
    violations, seen := CheckPredictions(byId, ps);
    ghost var before := violations;
    var i := 0;
    while i < |slots|
      invariant 0 <= i <= |slots| && violations == before + MissingViolations(slots[..i], seen)
    {
      assert slots[..i + 1][..i] == slots[..i];
      if slots[i].slotId !in seen { violations := violations + [MissingSlot(slots[i].slotId)]; }
      i := i + 1;
    }
    assert slots[..i] == slots;
  }
}
