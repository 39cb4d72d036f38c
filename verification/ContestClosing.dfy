/**
 Closed contests: in which runs a cancelled or settled contest has an empty escrow, and exactly which
 submissions can break that.
 */
module ContestClosing {
  import opened Ledger
  import opened Ranking
  import opened ContestMoney
  import opened ContestTransfers
  import opened ContestSafety

  predicate IsClosed(s: Status) { s in {Settled, Cancelled} }

  // ---------------------------------------------------------------- steps

  /** A submission that commits and is charged: its key was new. */
  predicate Charges(w: World, s: Step) {
    s.SubmitStep? && Next(w, s) != w && !KeyUsed(w.books.journal, EntryKey(s.client))
  }

  /** What a charged submission does to its contest. */
  lemma ChargedView(w: World, s: Step)
    requires Inv(w) && Charges(w, s)
    ensures var v, v' := ViewOf(w, s.c), ViewOf(Next(w, s), s.c);
            && s.c in w.contests && v.escrow.Some? && v.escrow.value >= 0 && s.e !in v.entries
            && v' == v.(escrow := Some(v.escrow.value + w.contests[s.c].fee),
                 entries := v.entries[s.e := Entry(s.c, s.u, ACTIVE, true, 0, None)])
  {
    SubmitView(w, s.c, s.u, s.client, s.e);
    assert GoodView(ViewOf(w, s.c));
  }

  /** And what it leaves alone. */
  lemma ChargedSubmission(w: World, s: Step)
    requires Inv(w) && Charges(w, s)
    ensures var w' := Next(w, s);
            w'.contests == w.contests && w'.pending == w.pending && OthersSame(w, w', s.c) && Inv(w')
  {
    StepShape(w, s);
    StepKeepsInv(w, s);
  }

  /** The commit of a cancellation read in draft, which saw no escrow. */
  predicate CommitsBlindly(w: World, s: Step) {
    s.CommitCancel? && s.op in w.pending && w.pending[s.op].CancelSnapshot? && !w.pending[s.op].escrowSeen
  }

  /** Such a cancellation commits only while there still is no escrow, or nobody has paid into it. */
  predicate SightedStep(w: World, s: Step) {
    CommitsBlindly(w, s) ==> EscrowIn(w.books, w.pending[s.op].contest) in {None, Some(0)}
  }

  predicate Sighted(w: World, steps: seq<Step>)
    decreases |steps|
  {
    steps == [] || (SightedStep(w, steps[0]) && Sighted(Next(w, steps[0]), steps[1..]))
  }

  /** A charged submission meets an open contest, and no settlement waits that saw no entrant at all. */
  predicate SafeStep(w: World, s: Step) {
    Charges(w, s) && s.c in w.contests ==>
      !IsClosed(w.contests[s.c].status) && forall op :: op in w.pending ==> w.pending[op] != SettleSnapshot(s.c, [])
  }

  predicate Safe(w: World, steps: seq<Step>)
    decreases |steps|
  {
    steps == [] || (SafeStep(w, steps[0]) && Safe(Next(w, steps[0]), steps[1..]))
  }

  // ---------------------------------------------------------------- pending snapshots

  lemma {:induction false} DistinctSize(ids: seq<Uuid>)
    requires Distinct(ids)
    ensures |Elements(ids)| == |ids|
  {
    if ids == [] {
      assert Elements(ids) == {};
    } else {
      var rest := ids[1..];
      assert forall i :: 0 <= i < |rest| ==> rest[i] == ids[i + 1];
      DistinctSize(rest);
      assert ids[0] !in rest;
      assert forall id :: id in ids <==> id == ids[0] || id in rest;
      assert Elements(ids) == {ids[0]} + Elements(rest);
    }
  }

  lemma ListedActive(w: World, c: Uuid, ids: seq<Uuid>)
    requires ListsActive(w, c, ids)
    ensures |ids| == |Active(ViewOf(w, c).entries)|
    ensures Elements(ids) == Active(ViewOf(w, c).entries)
  {
    DistinctSize(ids);
    assert Elements(ids) == Active(ViewOf(w, c).entries);
  }

  /** A pending snapshot is an old one, or it was read just now. */
  lemma NextPending(w: World, s: Step, op: Uuid)
    requires op in Next(w, s).pending
    ensures (op in w.pending && Next(w, s).pending[op] == w.pending[op])
         || (Next(w, s).contests == w.contests && Next(w, s).books == w.books && Next(w, s).entries == w.entries
             && ((s.ReadCancel? && s.op == op &&
                  Next(w, s).pending[op] == CancelSnapshot(s.c, Exists(w, ContestEscrow(s.c)), s.order)
                  && s.c in w.contests && w.contests[s.c].status in {Draft, Published, Locked} && Distinct(s.order))
              || (s.ReadSettle? && s.op == op && Next(w, s).pending[op] == SettleSnapshot(s.c, s.ranking)
                  && s.c in w.contests && w.contests[s.c].status == Scored && ListsActive(w, s.c, s.ranking))))
  {
  }

  lemma SameRowsSameView(w: World, w': World, c: Uuid)
    requires w'.contests == w.contests && w'.books == w.books && w'.entries == w.entries
    ensures ViewOf(w', c) == ViewOf(w, c)
  {
  }

  // ---------------------------------------------------------------- empty escrows

  ghost predicate ClosedEmpty(v: View) {
    v.escrow.Some? && v.contest.Some? && IsClosed(v.contest.value.status) ==> v.escrow.value == 0
  }

  /** A settlement that saw no entrant waits over an empty escrow. */
  ghost predicate EmptyRankingOk(w: World, op: Uuid) {
    op in w.pending && w.pending[op].SettleSnapshot? && w.pending[op].ranked == [] ==>
      EscrowIn(w.books, w.pending[op].contest) in {None, Some(0)}
  }

  ghost predicate SafeInv(w: World) {
    Inv(w) && (forall c :: ClosedEmpty(ViewOf(w, c))) && forall op :: EmptyRankingOk(w, op)
  }

  /** A change that neither brings money into a closed contest nor closes one over money. */
  ghost predicate SafeChange(v: View, ch: Change) {
    && (ch.Entered? && ch.entry.charged && v.contest.Some? ==> !IsClosed(v.contest.value.status))
    && (ch.PaidRanking? && ch.ranked == [] && v.escrow.Some? ==> v.escrow.value <= 0)
    && (ch.Called? && !ch.escrowSeen ==> v.escrow in {None, Some(0)})
  }

  lemma ChangeKeepsClosedEmpty(v: View, v': View, ch: Change)
    requires GoodView(v) && ClosedEmpty(v) && Changes(v, v', ch) && SafeChange(v, ch)
    ensures ClosedEmpty(v')
  {
  }

  /** No change but a charged entry brings money into an empty escrow. */
  lemma ChangeKeepsEmpty(v: View, v': View, ch: Change)
    requires GoodView(v) && GoodView(v') && Changes(v, v', ch) && v.escrow in {None, Some(0)}
    requires ch.Entered? ==> !ch.entry.charged
    ensures v'.escrow in {None, Some(0)}
  {
    if ch.Called? && v.escrow.Some? { FeeTimes(v.contest.value.fee, |Elements(ch.ids) - v.refunded|); }
  }

  lemma EnteredIsCharged(w: World, s: Step)
    requires ChangeOf(w, s).Entered?
    ensures s.SubmitStep? && ContestOf(w, s) == s.c && (ChangeOf(w, s).entry.charged <==> Charges(w, s))
  {
  }

  lemma EmptyRankingSettles(w: World, s: Step)
    requires SafeInv(w) && ChangeOf(w, s).PaidRanking? && ChangeOf(w, s).ranked == []
    ensures var escrow := ViewOf(w, ContestOf(w, s)).escrow; escrow.Some? ==> escrow.value <= 0
  {
    assert EmptyRankingOk(w, s.op);
  }

  lemma StepIsSafeChange(w: World, s: Step)
    requires SafeInv(w) && SafeStep(w, s) && SightedStep(w, s)
    ensures SafeChange(ViewOf(w, ContestOf(w, s)), ChangeOf(w, s))
  {
    var ch := ChangeOf(w, s);
    if ch.Entered? { EnteredIsCharged(w, s); }
    if ch.PaidRanking? && ch.ranked == [] { EmptyRankingSettles(w, s); }
  }

  lemma StepKeepsClosedEmpty(w: World, s: Step, c: Uuid)
    requires SafeInv(w) && SafeStep(w, s) && SightedStep(w, s)
    ensures ClosedEmpty(ViewOf(Next(w, s), c))
  {
    var v, v', ch := ViewOf(w, c), ViewOf(Next(w, s), c), ChangeOf(w, s);
    StepShape(w, s);
    assert ClosedEmpty(v) && GoodView(v);
    if c == ContestOf(w, s) {
      StepIsSafeChange(w, s);
      ChangeKeepsClosedEmpty(v, v', ch);
    }
  }

  lemma OldRankingStaysOk(w: World, s: Step, op: Uuid)
    requires SafeInv(w) && SafeStep(w, s) && Inv(Next(w, s))
    requires op in w.pending && op in Next(w, s).pending && Next(w, s).pending[op] == w.pending[op]
    ensures EmptyRankingOk(Next(w, s), op)
  {
    var c := w.pending[op].contest;
    StepShape(w, s);
    assert EmptyRankingOk(w, op);
    assert GoodView(ViewOf(w, c)) && GoodView(ViewOf(Next(w, s), c));
    if c == ContestOf(w, s) && w.pending[op].SettleSnapshot? && w.pending[op].ranked == [] {
      if ChangeOf(w, s).Entered? { EnteredIsCharged(w, s); }
      ChangeKeepsEmpty(ViewOf(w, c), ViewOf(Next(w, s), c), ChangeOf(w, s));
    }
  }

  lemma NewRankingIsOk(w: World, c: Uuid)
    requires Inv(w) && c in w.contests && ListsActive(w, c, [])
    ensures EscrowIn(w.books, c) in {None, Some(0)}
  {
    var v := ViewOf(w, c);
    assert GoodView(v);
    ListedActive(w, c, []);
    ChargedAtMostActive(v.entries);
    assert |ChargedActive(v.entries)| == 0;
  }

  lemma StepKeepsSafe(w: World, s: Step)
    requires SafeInv(w) && SafeStep(w, s) && SightedStep(w, s)
    ensures SafeInv(Next(w, s))
  {
    var w' := Next(w, s);
    StepKeepsInv(w, s);
    forall c ensures ClosedEmpty(ViewOf(w', c)) { StepKeepsClosedEmpty(w, s, c); }
    forall op ensures EmptyRankingOk(w', op) {
      if op in w'.pending {
        NextPending(w, s, op);
        if op in w.pending && w'.pending[op] == w.pending[op] {
          OldRankingStaysOk(w, s, op);
        } else if s.ReadSettle? && s.ranking == [] {
          NewRankingIsOk(w, s.c);
        }
      }
    }
  }

  lemma {:induction false} RunKeepsSafe(w: World, steps: seq<Step>)
    requires SafeInv(w) && Safe(w, steps) && Sighted(w, steps)
    ensures SafeInv(ContestMoney.Run(w, steps))
    decreases |steps|
  {
    if steps != [] {
      StepKeepsSafe(w, steps[0]);
      RunKeepsSafe(Next(w, steps[0]), steps[1..]);
    }
  }

  lemma SafeRun(steps: seq<Step>)
    requires Safe(START, steps) && Sighted(START, steps)
    ensures SafeInv(ContestMoney.Run(START, steps))
  {
    StartInv();
    RunKeepsSafe(START, steps);
  }

  /** A cancelled or settled contest has an empty escrow, in every run whose charged submissions are
      safe and whose draft-read cancellations commit before anybody has paid. */
  lemma ClosedContestsAreEmpty(steps: seq<Step>, c: Uuid)
    requires Safe(START, steps) && Sighted(START, steps)
    ensures var w := ContestMoney.Run(START, steps);
            c in w.contests && IsClosed(w.contests[c].status) && Exists(w, ContestEscrow(c)) ==>
              w.books.balances[ContestEscrow(c)] == 0
  {
    SafeRun(steps);
    assert ClosedEmpty(ViewOf(ContestMoney.Run(START, steps), c));
  }

  // ---------------------------------------------------------------- the exact boundary

  /** Whatever safe and sighted steps follow, the contest is never closed with money in its escrow. */
  ghost predicate NeverStrands(w: World, c: Uuid) {
    forall more :: Safe(w, more) && Sighted(w, more) ==> ClosedEmpty(ViewOf(ContestMoney.Run(w, more), c))
  }

  lemma RunTwo(w: World, a: Step, b: Step)
    ensures ContestMoney.Run(w, [a, b]) == Next(Next(w, a), b)
    ensures Safe(w, [a, b]) <==> SafeStep(w, a) && SafeStep(Next(w, a), b)
    ensures Sighted(w, [a, b]) <==> SightedStep(w, a) && SightedStep(Next(w, a), b)
  {
    assert [a, b][1..] == [b] && [b][1..] == [];
    assert ContestMoney.Run(Next(w, a), [b]) == ContestMoney.Run(Next(Next(w, a), b), []);
    assert Safe(Next(w, a), [b]) <==> SafeStep(Next(w, a), b);
    assert Sighted(Next(w, a), [b]) <==> SightedStep(Next(w, a), b);
  }

  /** A settlement that saw no entrant closes the contest over whatever its escrow holds. */
  lemma EmptySettlementStrands(w: World, c: Uuid, op: Uuid)
    requires Inv(w) && op in w.pending && w.pending[op] == SettleSnapshot(c, []) && EscrowIn(w.books, c).Some? &&
             EscrowIn(w.books, c).value > 0
    ensures !NeverStrands(w, c)
  {
    var open, settle := OpenAccountStep(PlatformRevenue), CommitSettle(op);
    var w1 := Next(w, open);
    var w2 := Next(w1, settle);
    assert GoodSnapshot(w, w.pending[op]);
    assert WriteRanks(w1.entries, []) == w1.entries;
    assert Settle(w1, SettleSnapshot(c, [])) == Some(SetStatus(w1, c, Settled));
    RunTwo(w, open, settle);
    assert !ClosedEmpty(ViewOf(w2, c));
    assert Safe(w, [open, settle]) && Sighted(w, [open, settle]);
  }

  /** The exact condition for a charged submission in such a run: from its commit on, safe and sighted
      steps never close its contest over money if and only if the contest is open at the commit and no
      settlement waits that saw no entrant. */
  lemma SubmissionSafeIff(steps: seq<Step>, s: Step)
    requires Safe(START, steps) && Sighted(START, steps) && Charges(ContestMoney.Run(START, steps), s)
    ensures var w := ContestMoney.Run(START, steps);
            && s.c in w.contests
            && (NeverStrands(Next(w, s), s.c) <==>
                  !IsClosed(w.contests[s.c].status) &&
                    forall op :: op in w.pending ==> w.pending[op] != SettleSnapshot(s.c, []))
  {
    SafeRun(steps);
    var w := ContestMoney.Run(START, steps);
    var w', c := Next(w, s), s.c;
    ChargedView(w, s);
    ChargedSubmission(w, s);
    if SafeStep(w, s) {
      StepKeepsSafe(w, s);
      forall more | Safe(w', more) && Sighted(w', more)
        ensures ClosedEmpty(ViewOf(ContestMoney.Run(w', more), c))
      {
        RunKeepsSafe(w', more);
      }
    } else if IsClosed(w.contests[c].status) {
      assert Safe(w', []) && Sighted(w', []) && ContestMoney.Run(w', []) == w';
      assert !ClosedEmpty(ViewOf(w', c));
    } else {
      var op :| op in w.pending && w.pending[op] == SettleSnapshot(c, []);
      EmptySettlementStrands(w', c, op);
    }
  }

  lemma BlindCancellationCommits(w: World, s: Step)
    requires Inv(w) && CommitsBlindly(w, s)
    ensures var c := w.pending[s.op].contest; var w' := Next(w, s);
            && c in w'.contests && w'.contests[c].status == Cancelled && EscrowIn(w'.books, c) == EscrowIn(w.books, c)
  {
    assert GoodSnapshot(w, w.pending[s.op]);
    assert Cancel(w, w.pending[s.op]).Some?;
  }

  /** And for a cancellation that was read in draft: it commits whatever has happened since, and from then on
      safe and sighted steps never close its contest over money if and only if there is no escrow at the
      commit, or nothing in it. */
  lemma BlindCancellationSafeIff(steps: seq<Step>, s: Step)
    requires Safe(START, steps) && Sighted(START, steps) && CommitsBlindly(ContestMoney.Run(START, steps), s)
    ensures var w := ContestMoney.Run(START, steps);
            var c := w.pending[s.op].contest;
            && c in Next(w, s).contests && Next(w, s).contests[c].status == Cancelled
            && (NeverStrands(Next(w, s), c) <==> EscrowIn(w.books, c) in {None, Some(0)})
  {
    SafeRun(steps);
    var w := ContestMoney.Run(START, steps);
    var w', c := Next(w, s), w.pending[s.op].contest;
    BlindCancellationCommits(w, s);
    if SightedStep(w, s) {
      StepKeepsSafe(w, s);
      forall more | Safe(w', more) && Sighted(w', more) ensures ClosedEmpty(ViewOf(ContestMoney.Run(w', more), c)) {
        RunKeepsSafe(w', more);
      }
    } else {
      assert Safe(w', []) && Sighted(w', []) && ContestMoney.Run(w', []) == w';
      assert !ClosedEmpty(ViewOf(w', c));
    }
  }
}
