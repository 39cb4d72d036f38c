/**
 What the slip validator accepts, and how its reports add up.
 */
module SlipAcceptance {
  import opened Ledger
  import opened Markets
  import opened SlipValidator

  predicate DistinctPicks(ps: seq<SlipPrediction>) {
    forall i, j :: 0 <= i < j < |ps| ==> ps[i].slotId != ps[j].slotId
  }

  ghost predicate Fits(slots: seq<SlotDefinition>, p: SlipPrediction) {
    exists slot :: slot in slots && slot.slotId == p.slotId && MarketTier(p.market) == slot.tier &&
      IsValidSelection(p.market, p.selection)
  }

  ghost predicate Filled(slot: SlotDefinition, ps: seq<SlipPrediction>) {
    exists p :: p in ps && p.slotId == slot.slotId
  }

  /** The predictions are a bijection onto the slots, each with a valid pick of the slot's tier. */
  ghost predicate FillsSlots(slots: seq<SlotDefinition>, ps: seq<SlipPrediction>) {
    DistinctPicks(ps) && (forall p :: p in ps ==> Fits(slots, p)) && forall slot :: slot in slots ==> Filled(slot, ps)
  }

  ghost function SlotIds(slots: seq<SlotDefinition>): set<Uuid> { set slot | slot in slots :: slot.slotId }

  ghost function PickedIds(ps: seq<SlipPrediction>): set<Uuid> { set p | p in ps :: p.slotId }

  // ---------------------------------------------------------------- slots by id

  lemma {:induction false} IndexIsExact(slots: seq<SlotDefinition>)
    requires DistinctSlots(slots)
    ensures SlotById(slots).Keys == SlotIds(slots)
    ensures forall slot :: slot in slots ==> SlotById(slots)[slot.slotId] == slot
  {
    if slots != [] {
      var rest, last := slots[..|slots| - 1], slots[|slots| - 1];
      IndexIsExact(rest);
      assert forall slot :: slot in slots <==> slot in rest || slot == last;
      forall slot | slot in rest ensures slot.slotId != last.slotId {
        var i :| 0 <= i < |rest| && rest[i] == slot;
        assert slots[i].slotId != slots[|slots| - 1].slotId;
      }
    }
  }

  lemma {:induction false} SlotCount(slots: seq<SlotDefinition>)
    requires DistinctSlots(slots)
    ensures |SlotIds(slots)| == |slots|
  {
    if slots == [] {
      assert SlotIds(slots) == {};
    } else {
      var rest, last := slots[..|slots| - 1], slots[|slots| - 1];
      LastSlotIsDistinct(slots);
      SlotCount(rest);
      assert SlotIds(slots) == SlotIds(rest) + {last.slotId} by {
        assert slots == rest + [last];
        SlotIdsGrow(rest, last);
      }
    }
  }

  lemma PickedGrows(ps: seq<SlipPrediction>, p: SlipPrediction)
    ensures PickedIds(ps + [p]) == PickedIds(ps) + {p.slotId}
  {
  }

  lemma SlotIdsGrow(slots: seq<SlotDefinition>, slot: SlotDefinition)
    ensures SlotIds(slots + [slot]) == SlotIds(slots) + {slot.slotId}
  {
  }

  lemma LastSlotIsDistinct(slots: seq<SlotDefinition>)
    requires slots != [] && DistinctSlots(slots)
    ensures DistinctSlots(slots[..|slots| - 1]) && slots[|slots| - 1].slotId !in SlotIds(slots[..|slots| - 1])
  {
  }

  lemma {:induction false} PickCount(ps: seq<SlipPrediction>)
    requires DistinctPicks(ps)
    ensures |PickedIds(ps)| == |ps|
  {
    if ps == [] {
      assert PickedIds(ps) == {};
    } else {
      var rest, last := ps[..|ps| - 1], ps[|ps| - 1];
      PickCount(rest);
      assert forall p :: p in ps <==> p in rest || p == last;
      LastIsDistinct(ps);
      assert PickedIds(ps) == PickedIds(rest) + {last.slotId} by {
        assert ps == rest + [last];
        PickedGrows(rest, last);
      }
    }
  }

  // ---------------------------------------------------------------- no violations

  /** No report from the predictions loop: every pick is known, first on its slot, and fits. */
  lemma {:induction false} CleanPredictions(slots: seq<SlotDefinition>, byId: map<Uuid, SlotDefinition>,
                                            ps: seq<SlipPrediction>)
    requires byId.Keys == SlotIds(slots) && forall slot :: slot in slots ==> byId[slot.slotId] == slot
    ensures PredictionViolations(byId, ps) == [] <==> DistinctPicks(ps) && forall p :: p in ps ==> Fits(slots, p)
  {
    if ps != [] {
      var rest, last := ps[..|ps| - 1], ps[|ps| - 1];
      CleanPredictions(slots, byId, rest);
      assert forall p :: p in ps <==> p in rest || p == last;
      FitsIsClean(slots, byId, last);
      LastIsDistinct(ps);
      if PredictionViolations(byId, ps) == [] {
        assert last.slotId !in Seen(byId, rest);
      }
    }
  }

  lemma FitsIsClean(slots: seq<SlotDefinition>, byId: map<Uuid, SlotDefinition>, p: SlipPrediction)
    requires byId.Keys == SlotIds(slots) && forall slot :: slot in slots ==> byId[slot.slotId] == slot
    ensures Fits(slots, p) <==> p.slotId in byId && PickViolations(byId[p.slotId], p) == []
  {
  }

  lemma LastIsDistinct(ps: seq<SlipPrediction>)
    requires ps != []
    ensures var rest, last := ps[..|ps| - 1], ps[|ps| - 1];
            DistinctPicks(ps) <==> DistinctPicks(rest) && forall p :: p in rest ==> p.slotId != last.slotId
  {
  }

  lemma {:induction false} CleanSlots(slots: seq<SlotDefinition>, seen: set<Uuid>)
    ensures MissingViolations(slots, seen) == [] <==> SlotIds(slots) <= seen
  {
    if slots != [] {
      var rest, last := slots[..|slots| - 1], slots[|slots| - 1];
      CleanSlots(rest, seen);
      assert forall slot :: slot in slots <==> slot in rest || slot == last;
      assert SlotIds(slots) == SlotIds(rest) + {last.slotId};
    }
  }

  /** The slots of a bijection are as many as the picks. */
  lemma BijectionCounts(slots: seq<SlotDefinition>, ps: seq<SlipPrediction>)
    requires DistinctSlots(slots) && FillsSlots(slots, ps)
    ensures |ps| == |slots| && PickedIds(ps) == SlotIds(slots)
  {
    forall p | p in ps ensures p.slotId in SlotIds(slots) { assert Fits(slots, p); }
    forall slot | slot in slots ensures slot.slotId in PickedIds(ps) { assert Filled(slot, ps); }
    assert PickedIds(ps) == SlotIds(slots);
    SlotCount(slots);
    PickCount(ps);
  }

  /** A slip is accepted exactly when the slots are balanced and the predictions fill them. */
  lemma AcceptedIff(slots: seq<SlotDefinition>, ps: seq<SlipPrediction>)
    requires DistinctSlots(slots)
    ensures SlipViolations(slots, ps) == [] <==> Balanced(slots) && FillsSlots(slots, ps)
  {
    var byId := SlotById(slots);
    IndexIsExact(slots);
    CleanPredictions(slots, byId, ps);
    CleanSlots(slots, Seen(byId, ps));
    SeenFills(slots, byId, ps);
    if FillsSlots(slots, ps) { BijectionCounts(slots, ps); }
  }

  lemma SeenFills(slots: seq<SlotDefinition>, byId: map<Uuid, SlotDefinition>, ps: seq<SlipPrediction>)
    requires byId.Keys == SlotIds(slots)
    ensures SlotIds(slots) <= Seen(byId, ps) <==> forall slot :: slot in slots ==> Filled(slot, ps)
  {
    if SlotIds(slots) <= Seen(byId, ps) {
      forall slot | slot in slots ensures Filled(slot, ps) { assert slot.slotId in Seen(byId, ps); }
    }
    if forall slot :: slot in slots ==> Filled(slot, ps) {
      forall slot | slot in slots ensures slot.slotId in Seen(byId, ps) { assert Filled(slot, ps); }
    }
  }

  // ---------------------------------------------------------------- how the reports add up

  function Unknowns(vs: seq<Violation>): nat {
    if vs == [] then 0 else Unknowns(vs[..|vs| - 1]) + if vs[|vs| - 1].UnknownSlot? then 1 else 0
  }

  function Duplicates(vs: seq<Violation>): nat {
    if vs == [] then 0 else Duplicates(vs[..|vs| - 1]) + if vs[|vs| - 1].DuplicateSlot? then 1 else 0
  }

  function Missings(vs: seq<Violation>): nat {
    if vs == [] then 0 else Missings(vs[..|vs| - 1]) + if vs[|vs| - 1].MissingSlot? then 1 else 0
  }

  lemma {:induction false} CountsAppend(a: seq<Violation>, b: seq<Violation>)
    ensures Unknowns(a + b) == Unknowns(a) + Unknowns(b) && Duplicates(a + b) == Duplicates(a) + Duplicates(b) &&
            Missings(a + b) == Missings(a) + Missings(b)
  {
    if b == [] {
      assert a + b == a;
    } else {
      CountsAppend(a, b[..|b| - 1]);
      assert (a + b)[..|a + b| - 1] == a + b[..|b| - 1];
    }
  }

  /** Every prediction is either the first on its known slot or reported as unknown or duplicate. */
  lemma {:induction false} PredictionsAddUp(byId: map<Uuid, SlotDefinition>, ps: seq<SlipPrediction>)
    ensures var vs := PredictionViolations(byId, ps);
            |Seen(byId, ps)| + Unknowns(vs) + Duplicates(vs) == |ps| && Missings(vs) == 0
  {
    if ps == [] {
      assert Seen(byId, ps) == {};
    } else {
      var rest, last := ps[..|ps| - 1], ps[|ps| - 1];
      PredictionsAddUp(byId, rest);
      assert ps == rest + [last];
      SeenSize(byId, rest, last);
      OneMorePrediction(byId, PredictionViolations(byId, rest), Seen(byId, rest), last);
    }
  }

  lemma SeenSize(byId: map<Uuid, SlotDefinition>, ps: seq<SlipPrediction>, p: SlipPrediction)
    ensures |Seen(byId, ps + [p])| ==
            |Seen(byId, ps)| + if p.slotId in byId && p.slotId !in Seen(byId, ps) then 1 else 0
  {
    SeenGrows(byId, ps, p);
    assert p.slotId in Seen(byId, ps) ==> Seen(byId, ps) + {p.slotId} == Seen(byId, ps);
  }

  lemma OneMorePrediction(byId: map<Uuid, SlotDefinition>, vs: seq<Violation>, seen: set<Uuid>, p: SlipPrediction)
    ensures var after := vs + OneViolation(byId, seen, p);
            && Unknowns(after) + Duplicates(after) + (if p.slotId in byId && p.slotId !in seen then 1 else 0) ==
                 Unknowns(vs) + Duplicates(vs) + 1
            && Missings(after) == Missings(vs)
  {
    CountsAppend(vs, OneViolation(byId, seen, p));
    OneCounts(byId, seen, p);
  }

  lemma OneMoreSlot(vs: seq<Violation>, slot: SlotDefinition, seen: set<Uuid>)
    ensures var after := vs + if slot.slotId in seen then [] else [MissingSlot(slot.slotId)];
            && Missings(after) == Missings(vs) + (if slot.slotId in seen then 0 else 1)
            && Unknowns(after) == Unknowns(vs) && Duplicates(after) == Duplicates(vs)
  {
    var one := if slot.slotId in seen then [] else [MissingSlot(slot.slotId)];
    CountsAppend(vs, one);
    assert one != [] ==> one[..0] == [];
  }

  lemma SeenSlots(slots: seq<SlotDefinition>, slot: SlotDefinition, seen: set<Uuid>)
    requires slot.slotId !in SlotIds(slots)
    ensures |SlotIds(slots + [slot]) * seen| == |SlotIds(slots) * seen| + if slot.slotId in seen then 1 else 0
  {
    SlotIdsGrow(slots, slot);
    var before := SlotIds(slots) * seen;
    assert SlotIds(slots + [slot]) * seen == if slot.slotId in seen then before + {slot.slotId} else before;
  }

  lemma OneCounts(byId: map<Uuid, SlotDefinition>, seen: set<Uuid>, p: SlipPrediction)
    ensures var one := OneViolation(byId, seen, p);
            && Unknowns(one) == (if p.slotId !in byId then 1 else 0)
            && Duplicates(one) == (if p.slotId in byId && p.slotId in seen then 1 else 0) && Missings(one) == 0
  {
    var one := OneViolation(byId, seen, p);
    if p.slotId !in byId || p.slotId in seen {
      assert one[..0] == [];
    } else {
      var tier, pick := if MarketTier(p.market) != byId[p.slotId].tier then [MarketTierMismatch(p.slotId)] else [],
                        if !IsValidSelection(p.market, p.selection) then [InvalidSelection(p.slotId)] else [];
      CountsAppend(tier, pick);
      assert tier != [] ==> tier[..0] == [];
      assert pick != [] ==> pick[..0] == [];
    }
  }

  lemma {:induction false} MissingAddsUp(slots: seq<SlotDefinition>, seen: set<Uuid>)
    requires DistinctSlots(slots)
    ensures var vs := MissingViolations(slots, seen);
            Missings(vs) + |SlotIds(slots) * seen| == |slots| && Unknowns(vs) == 0 && Duplicates(vs) == 0
  {
    if slots == [] {
      assert SlotIds(slots) * seen == {};
    } else {
      var rest, last := slots[..|slots| - 1], slots[|slots| - 1];
      MissingAddsUp(rest, seen);
      LastSlotIsDistinct(slots);
      assert slots == rest + [last];
      SeenSlots(rest, last, seen);
      OneMoreSlot(MissingViolations(rest, seen), last, seen);
    }
  }

  /** For a slip of the right length, as many slots are reported missing as predictions are reported
      on an unknown or an already used slot: the missing reports never decide acceptance alone. */
  lemma ReportsAddUp(slots: seq<SlotDefinition>, ps: seq<SlipPrediction>)
    requires DistinctSlots(slots) && Balanced(slots) && |ps| == TOTAL_SLOTS
    ensures var vs := SlipViolations(slots, ps); Missings(vs) == Unknowns(vs) + Duplicates(vs)
  {
    var byId := SlotById(slots);
    var seen := Seen(byId, ps);
    IndexIsExact(slots);
    PredictionsAddUp(byId, ps);
    MissingAddsUp(slots, seen);
    assert SlotIds(slots) * seen == seen;
    CountsAppend(PredictionViolations(byId, ps), MissingViolations(slots, seen));
  }

  // ---------------------------------------------------------------- what each report means

  /** The prediction at `i` is the first on its slot. */
  predicate FirstOn(ps: seq<SlipPrediction>, i: nat)
    requires i < |ps|
  {
    forall j :: 0 <= j < i ==> ps[j].slotId != ps[i].slotId
  }

  ghost predicate Mismatched(slots: seq<SlotDefinition>, p: SlipPrediction) {
    exists slot :: slot in slots && slot.slotId == p.slotId && MarketTier(p.market) != slot.tier
  }

  /** The fault in the prediction at `i` that a report states. */
  ghost predicate IsFault(slots: seq<SlotDefinition>, ps: seq<SlipPrediction>, i: nat, v: Violation)
    requires i < |ps|
  {
    var p, known := ps[i], ps[i].slotId in SlotIds(slots);
    match v
    case UnknownSlot(id) => id == p.slotId && !known
    case DuplicateSlot(id) => id == p.slotId && known && !FirstOn(ps, i)
    case MarketTierMismatch(id) => id == p.slotId && FirstOn(ps, i) && Mismatched(slots, p)
    case InvalidSelection(id) => id == p.slotId && known && FirstOn(ps, i) && !IsValidSelection(p.market, p.selection)
    case _ => false
  }

  ghost predicate HasFault(slots: seq<SlotDefinition>, ps: seq<SlipPrediction>, v: Violation) {
    exists i :: 0 <= i < |ps| && IsFault(slots, ps, i, v)
  }

  lemma OneIsFault(slots: seq<SlotDefinition>, byId: map<Uuid, SlotDefinition>, ps: seq<SlipPrediction>, v: Violation)
    requires ps != [] && byId.Keys == SlotIds(slots) && forall slot :: slot in slots ==> byId[slot.slotId] == slot
    ensures var n := |ps| - 1; v in OneViolation(byId, Seen(byId, ps[..n]), ps[n]) <==> IsFault(slots, ps, n, v)
  {
  }

  lemma {:induction false} FaultsAreReported(slots: seq<SlotDefinition>, byId: map<Uuid, SlotDefinition>,
                                             ps: seq<SlipPrediction>, v: Violation)
    requires byId.Keys == SlotIds(slots) && forall slot :: slot in slots ==> byId[slot.slotId] == slot
    ensures v in PredictionViolations(byId, ps) <==> HasFault(slots, ps, v)
  {
    if ps != [] {
      var n := |ps| - 1;
      FaultsAreReported(slots, byId, ps[..n], v);
      OneIsFault(slots, byId, ps, v);
      FaultPrefix(slots, ps, v);
    }
  }

  lemma FaultPrefix(slots: seq<SlotDefinition>, ps: seq<SlipPrediction>, v: Violation)
    requires ps != []
    ensures HasFault(slots, ps, v) <==> HasFault(slots, ps[..|ps| - 1], v) || IsFault(slots, ps, |ps| - 1, v)
  {
    var rest := ps[..|ps| - 1];
    forall i: nat | i < |rest| ensures IsFault(slots, rest, i, v) <==> IsFault(slots, ps, i, v) {
      assert rest[i] == ps[i] && (FirstOn(rest, i) <==> FirstOn(ps, i));
    }
    if HasFault(slots, ps, v) {
      var i :| 0 <= i < |ps| && IsFault(slots, ps, i, v);
      if i < |rest| { assert IsFault(slots, rest, i, v); }
    }
    if HasFault(slots, rest, v) {
      var i :| 0 <= i < |rest| && IsFault(slots, rest, i, v);
      assert IsFault(slots, ps, i, v);
    }
  }

  lemma {:induction false} MissingAreReported(slots: seq<SlotDefinition>, seen: set<Uuid>, v: Violation)
    ensures v in MissingViolations(slots, seen) <==> v.MissingSlot? && v.slotId in SlotIds(slots) && v.slotId !in seen
  {
    if slots != [] {
      var rest, last := slots[..|slots| - 1], slots[|slots| - 1];
      MissingAreReported(rest, seen, v);
      assert SlotIds(slots) == SlotIds(rest) + {last.slotId} by {
        assert slots == rest + [last];
        SlotIdsGrow(rest, last);
      }
    }
  }

  /** Exactly which reports a slip gets: one about the slots if they are not balanced; else one about its
      length if that is not ten; else its faults and the slots nobody picked. */
  lemma ReportsExplained(slots: seq<SlotDefinition>, ps: seq<SlipPrediction>, v: Violation)
    requires DistinctSlots(slots)
    ensures v in SlipViolations(slots, ps) <==>
            if !Balanced(slots) then v == BadSlotConfig
            else if |ps| != 10 then v == WrongCount
            else HasFault(slots, ps, v) || (v.MissingSlot? && v.slotId in SlotIds(slots) && v.slotId !in PickedIds(ps))
  {
    if Balanced(slots) && |ps| == 10 {
      var byId := SlotById(slots);
      IndexIsExact(slots);
      FaultsAreReported(slots, byId, ps, v);
      MissingAreReported(slots, Seen(byId, ps), v);
    }
  }
}
