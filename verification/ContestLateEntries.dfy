/**
 A charged submission that enters a closed contest, and exactly when it lets an entry be both refunded
 and paid a prize: which pending cancellations and settlements can still spend its fee.
 */
module ContestLateEntries {
  import opened Ledger
  import opened Ranking
  import opened ContestMoney
  import opened ContestTransfers
  import opened ContestSafety
  import opened ContestClosing
  import opened ContestPayments

  // ---------------------------------------------------------------- threats

  /** The prize split of `gross` gives the place of `e` something. */
  ghost predicate WouldPay(gross: int, contest: Contest, ranked: seq<Uuid>, e: Uuid) {
    var r := ComputePrizes(Pool(gross, contest.commissionBps), contest.template, |ranked|);
    r.Prizes? && exists i :: 0 <= i < |r.amounts| && i < |ranked| && ranked[i] == e && r.amounts[i] != 0
  }

  /** A cancellation that saw the escrow and has one refund left, of an entry with a prize. */
  ghost predicate CancelThreat(w: World, snap: Snapshot, e: Uuid) {
    && snap.CancelSnapshot? && snap.escrowSeen && Unrefunded(w.books, snap.entries) == {e}
    && e in w.entries && w.entries[e].prize != 0
  }

  /** A first settlement that keeps a commission on one fee and would pay a refunded entry. */
  ghost predicate SettleThreat(w: World, snap: Snapshot, e: Uuid) {
    && snap.SettleSnapshot? && snap.contest in w.contests && !KeyUsed(w.books.journal, SettlementKey(snap.contest))
    && KeyUsed(w.books.journal, RefundKey(e)) && w.contests[snap.contest].commissionBps > 0
    && WouldPay(w.contests[snap.contest].fee, w.contests[snap.contest], snap.ranked, e)
  }

  ghost predicate Threat(w: World, c: Uuid, op: Uuid, e: Uuid) {
    op in w.pending && w.pending[op].contest == c &&
      (CancelThreat(w, w.pending[op], e) || SettleThreat(w, w.pending[op], e))
  }

  ghost predicate Harmless(w: World, c: Uuid) { forall op, e :: !Threat(w, c, op, e) }

  /** A closed contest that holds one fee; nothing was paid twice anywhere. */
  ghost predicate Exposed(w: World, c: Uuid) {
    && Inv(w) && (forall op :: RankingOk(w, op)) && (forall d :: d != c ==> PaidView(ViewOf(w, d)))
    && c in w.contests && IsClosed(w.contests[c].status) && EscrowIn(w.books, c) == Some(w.contests[c].fee)
    && forall e :: e in ViewOf(w, c).refunded && e in ViewOf(w, c).entries ==> ViewOf(w, c).entries[e].prize == 0
  }

  lemma ExposedPaidOnce(w: World, c: Uuid, e: Uuid)
    requires Exposed(w, c)
    ensures !PaidTwice(w, e)
  {
    if e in w.entries && KeyUsed(w.books.journal, RefundKey(e)) {
      var v := ViewOf(w, w.entries[e].contest);
      assert e in v.refunded && e in v.entries;
      if w.entries[e].contest != c { assert PaidView(v); }
    }
  }

  // ---------------------------------------------------------------- what a settlement writes

  lemma {:induction false} PrizeElsewhere(entries: map<Uuid, Entry>, ranked: seq<Uuid>, prizes: seq<int>, e: Uuid)
    requires |prizes| <= |ranked| && (forall id :: id in ranked ==> id in entries) && e in entries
    requires forall i :: 0 <= i < |prizes| ==> ranked[i] != e
    ensures WritePrizes(entries, ranked, prizes)[e] == entries[e]
    decreases |prizes|
  {
    if prizes != [] { PrizeElsewhere(entries, ranked, prizes[..|prizes| - 1], e); }
  }

  lemma RankKeepsPrize(entries: map<Uuid, Entry>, ranked: seq<Uuid>, e: Uuid)
    requires (forall id :: id in ranked ==> id in entries) && e in entries
    ensures WriteRanks(entries, ranked)[e].prize == entries[e].prize
  {
    WriteRanksEffect(entries, ranked);
  }

  /** The prize an entry carries after a committed settlement is that of its place, if it has one. */
  lemma PrizeAfter(entries: map<Uuid, Entry>, ranked: seq<Uuid>, prizes: seq<int>, e: Uuid)
    requires |prizes| <= |ranked| && Distinct(ranked) && (forall id :: id in ranked ==> id in entries) && e in entries
    ensures var after := WriteRanks(WritePrizes(entries, ranked, prizes), ranked)[e].prize;
            && (forall i :: 0 <= i < |prizes| && ranked[i] == e ==> after == prizes[i])
            && ((forall i :: 0 <= i < |prizes| ==> ranked[i] != e) ==> after == entries[e].prize)
  {
    WritePrizesInOrder(entries, ranked, prizes);
    RankKeepsPrize(WritePrizes(entries, ranked, prizes), ranked, e);
    if forall i :: 0 <= i < |prizes| ==> ranked[i] != e { PrizeElsewhere(entries, ranked, prizes, e); }
  }

  /** A committed settlement of one fee changes a zero prize exactly where it would pay. */
  lemma SettledPrize(w: World, snap: Snapshot, e: Uuid)
    requires snap.SettleSnapshot? && Distinct(snap.ranked) && snap.ranked != [] && Settle(w, snap).Some? &&
             e in w.entries
    requires snap.contest in w.contests && EscrowIn(w.books, snap.contest) == Some(w.contests[snap.contest].fee) &&
             w.entries[e].prize == 0
    ensures e in Settle(w, snap).value.entries
    ensures Settle(w, snap).value.entries[e].prize != 0 <==>
            WouldPay(w.contests[snap.contest].fee, w.contests[snap.contest], snap.ranked, e)
  {
    var contest := w.contests[snap.contest];
    var prizes := PayOut(w.books, snap.contest, contest, Users(w.entries, snap.ranked)).value.prizes;
    assert prizes == ComputePrizes(Pool(contest.fee, contest.commissionBps), contest.template, |snap.ranked|).amounts;
    PrizeAfter(w.entries, snap.ranked, prizes, e);
    assert Settle(w, snap).value.entries == WriteRanks(WritePrizes(w.entries, snap.ranked, prizes), snap.ranked);
  }

  /** A settlement of one fee that would pay somebody commits exactly when its key is new and the
      platform keeps a commission. */
  lemma PayingSettlementIff(w: World, snap: Snapshot, e: Uuid)
    requires Base(w) && snap.SettleSnapshot? && GoodSnapshot(w, snap) && Exists(w, PlatformRevenue)
    requires EscrowIn(w.books, snap.contest) == Some(w.contests[snap.contest].fee)
    requires WouldPay(w.contests[snap.contest].fee, w.contests[snap.contest], snap.ranked, e)
    ensures Settle(w, snap).Some? <==>
            !KeyUsed(w.books.journal, SettlementKey(snap.contest)) && w.contests[snap.contest].commissionBps > 0
  {
    var contest, users := w.contests[snap.contest], Users(w.entries, snap.ranked);
    assert snap.ranked != [];
    forall i | 0 <= i < |users|
      ensures UserAvailable(users[i]) in w.books.balances
    {
      assert snap.ranked[i] in snap.ranked;
    }
    PayOutSucceeds(w.books, snap.contest, contest, users);
    SplitIff(contest.fee, contest.commissionBps, contest.template, |users|);
  }

  // ---------------------------------------------------------------- one pending operation

  /** Over one fee a cancellation that saw the escrow commits exactly when it has one refund left. */
  lemma OneRefundCommits(w: World, c: Uuid, snap: Snapshot)
    requires Exposed(w, c) && snap.CancelSnapshot? && snap.contest == c && snap.escrowSeen && GoodSnapshot(w, snap)
    ensures Cancel(w, snap).Some? <==> |Unrefunded(w.books, snap.entries)| == 1
  {
    var fee, k := w.contests[c].fee, |Unrefunded(w.books, snap.entries)|;
    RefundAllEscrow(w.books, c, fee, w.entries, snap.entries);
    MultiplyMonotone(fee, 1, k);
    FeeTimes(fee, k);
  }

  lemma Singleton(a: set<Uuid>, e: Uuid)
    requires |a| == 1 && e in a
    ensures a == {e}
  {
    assert |a - {e}| == 0;
    assert a == (a - {e}) + {e};
  }

  /** A pending cancellation then pays an entry twice exactly when it saw the escrow, the entry is its
      only refund left, and the entry has a prize. */
  lemma LateCancelPaysTwiceIff(w: World, c: Uuid, op: Uuid, e: Uuid)
    requires Exposed(w, c) && op in w.pending && w.pending[op].CancelSnapshot? && w.pending[op].contest == c
    ensures PaidTwice(Next(w, CommitCancel(op)), e) <==> CancelThreat(w, w.pending[op], e)
  {
    var snap := w.pending[op];
    assert GoodSnapshot(w, snap);
    ExposedPaidOnce(w, c, e);
    if snap.escrowSeen { OneRefundCommits(w, c, snap); }
    if Cancel(w, snap).Some? {
      CancelBooks(w, snap);
      if e in Unrefunded(w.books, snap.entries) && snap.escrowSeen { Singleton(Unrefunded(w.books, snap.entries), e); }
    }
  }

  lemma LateSettleCommitted(w: World, c: Uuid, snap: Snapshot, e: Uuid)
    requires Exposed(w, c) && snap.SettleSnapshot? && snap.contest == c && GoodSnapshot(w, snap) &&
             Distinct(snap.ranked) && Settle(w, snap).Some?
    ensures PaidTwice(Settle(w, snap).value, e) <==>
            KeyUsed(w.books.journal, RefundKey(e)) && WouldPay(w.contests[c].fee, w.contests[c], snap.ranked, e)
  {
    ExposedPaidOnce(w, c, e);
    SettleBooks(w, snap);
    SettleEntries(w, snap);
    if e in w.entries && w.entries[e].prize == 0 && snap.ranked != [] { SettledPrize(w, snap, e); }
  }

  /** A pending settlement then pays an entry twice exactly when it is the first, keeps a commission, and
      would pay an entry that was refunded. */
  lemma LateSettlePaysTwiceIff(w: World, c: Uuid, op: Uuid, e: Uuid)
    requires Exposed(w, c) && op in w.pending && w.pending[op].SettleSnapshot? && w.pending[op].contest == c &&
             Exists(w, PlatformRevenue)
    ensures PaidTwice(Next(w, CommitSettle(op)), e) <==> SettleThreat(w, w.pending[op], e)
  {
    var snap := w.pending[op];
    assert GoodSnapshot(w, snap) && RankingOk(w, op);
    if Settle(w, snap).Some? { LateSettleCommitted(w, c, snap, e); } else { ExposedPaidOnce(w, c, e); }
    if WouldPay(w.contests[c].fee, w.contests[c], snap.ranked, e) { PayingSettlementIff(w, snap, e); }
  }

  // ---------------------------------------------------------------- harmless runs

  /** Nothing that a threat depends on has changed. */
  ghost predicate Quiet(v: View, v': View) {
    && v.contest.Some? && v'.contest.Some? && IsClosed(v'.contest.value.status)
    && v'.contest.value == v.contest.value.(status := v'.contest.value.status)
    && v'.escrow == v.escrow && v'.refunded == v.refunded && v'.settled == v.settled
    && (forall e :: e in v.entries ==> e in v'.entries && v'.entries[e].prize == v.entries[e].prize)
    && (forall e :: e in v'.entries && e !in v.entries ==> v'.entries[e].prize == 0)
  }

  /** A change that moves no money out of the escrow and none into it. */
  lemma ChangeIsQuiet(v: View, v': View, ch: Change)
    requires Changes(v, v', ch) && v.contest.Some? && IsClosed(v.contest.value.status) && v.escrow.Some? &&
             v.escrow.value > 0
    requires ch.Entered? ==> !ch.entry.charged
    requires ch.Called? ==> !ch.escrowSeen
    requires ch.PaidRanking? ==> ch.ranked == []
    ensures Quiet(v, v')
  {
    if ch.Called? {
      assert Elements(ch.ids) - v.refunded == {};
      assert v'.refunded == v.refunded;
    }
  }

  lemma QuietThreat(w: World, w': World, c: Uuid, op: Uuid, e: Uuid)
    requires Inv(w) && Inv(w') && Quiet(ViewOf(w, c), ViewOf(w', c)) && op in w.pending && op in w'.pending &&
             w'.pending[op] == w.pending[op]
    requires Threat(w', c, op, e)
    ensures Threat(w, c, op, e)
  {
    var snap := w.pending[op];
    assert GoodSnapshot(w, snap) && GoodSnapshot(w', snap);
    var v, v' := ViewOf(w, c), ViewOf(w', c);
    if snap.CancelSnapshot? {
      UnrefundedInView(w, c, snap.entries);
      UnrefundedInView(w', c, snap.entries);
      assert e in Unrefunded(w'.books, snap.entries);
      assert e in v.entries && v'.entries[e] == w'.entries[e];
    } else {
      assert e in snap.ranked;
      assert e in v.entries && e in v'.refunded;
    }
  }

  /** Snapshots of a closed contest are only used up. */
  lemma NoNewSnapshots(w: World, s: Step, c: Uuid, op: Uuid)
    requires c in w.contests && IsClosed(w.contests[c].status) && op in Next(w, s).pending &&
             Next(w, s).pending[op].contest == c
    ensures op in w.pending && Next(w, s).pending[op] == w.pending[op]
  {
    NextPending(w, s, op);
  }

  lemma QuietStep(w: World, s: Step, c: Uuid)
    requires Exposed(w, c) && Harmless(w, c) && OnTimeStep(w, s) && Quiet(ViewOf(w, c), ViewOf(Next(w, s), c))
    ensures Exposed(Next(w, s), c) && Harmless(Next(w, s), c)
  {
    var w' := Next(w, s);
    StepKeepsInv(w, s);
    StepKeepsRankings(w, s);
    forall d | d != c ensures PaidView(ViewOf(w', d)) { StepKeepsPaidView(w, s, d); }
    forall op, e ensures !Threat(w', c, op, e) {
      if Threat(w', c, op, e) {
        NoNewSnapshots(w, s, c, op);
        QuietThreat(w, w', c, op, e);
      }
    }
    StillExposed(w, w', c);
  }

  lemma StillExposed(w: World, w': World, c: Uuid)
    requires Exposed(w, c) && Inv(w') && (forall op :: RankingOk(w', op)) &&
             (forall d :: d != c ==> PaidView(ViewOf(w', d)))
    requires Quiet(ViewOf(w, c), ViewOf(w', c))
    ensures Exposed(w', c)
  {
    var v, v' := ViewOf(w, c), ViewOf(w', c);
    assert v'.contest == Some(w'.contests[c]) && v'.escrow == EscrowIn(w'.books, c);
    forall e | e in v'.refunded && e in v'.entries ensures v'.entries[e].prize == 0 {
      if e in v.entries { assert v.entries[e].prize == 0; }
    }
  }

  /** Once the fee has left without a double payment, the contest is as if the entry had been on time. */
  lemma BackToPaid(w: World, s: Step, c: Uuid)
    requires Exposed(w, c) && OnTimeStep(w, s) && Drained(ViewOf(Next(w, s), c))
    requires forall e :: !PaidTwice(Next(w, s), e)
    ensures PaidInv(Next(w, s))
  {
    var w' := Next(w, s);
    StepKeepsInv(w, s);
    StepKeepsRankings(w, s);
    forall d ensures PaidView(ViewOf(w', d)) {
      if d != c {
        StepKeepsPaidView(w, s, d);
      } else {
        forall e | e in ViewOf(w', c).refunded && e in ViewOf(w', c).entries
          ensures ViewOf(w', c).entries[e].prize == 0
        {
          assert !PaidTwice(w', e);
        }
      }
    }
  }

  /** The money has left. */
  lemma ChangeDrains(v: View, v': View, ch: Change)
    requires Changes(v, v', ch) && v.escrow.Some? && v.escrow.value > 0
    requires (ch.Called? && ch.escrowSeen) || (ch.PaidRanking? && ch.ranked != [])
    ensures Drained(v')
  {
  }

  lemma StepDrains(w: World, s: Step, c: Uuid)
    requires Inv(w) && ContestOf(w, s) == c && ViewOf(w, c).escrow.Some? && ViewOf(w, c).escrow.value > 0
    requires var ch := ChangeOf(w, s); (ch.Called? && ch.escrowSeen) || (ch.PaidRanking? && ch.ranked != [])
    ensures Drained(ViewOf(Next(w, s), c))
  {
    StepShape(w, s);
    ChangeDrains(ViewOf(w, c), ViewOf(Next(w, s), c), ChangeOf(w, s));
  }

  lemma HarmlessCancel(w: World, c: Uuid, op: Uuid)
    requires Exposed(w, c) && Harmless(w, c) && op in w.pending && w.pending[op].contest == c &&
             w.pending[op].CancelSnapshot?
    ensures forall e :: !PaidTwice(Next(w, CommitCancel(op)), e)
  {
    forall e ensures !PaidTwice(Next(w, CommitCancel(op)), e) {
      assert !Threat(w, c, op, e);
      LateCancelPaysTwiceIff(w, c, op, e);
    }
  }

  lemma HarmlessSettle(w: World, c: Uuid, op: Uuid)
    requires Exposed(w, c) && Harmless(w, c) && op in w.pending && w.pending[op].contest == c &&
             w.pending[op].SettleSnapshot? && Exists(w, PlatformRevenue)
    ensures forall e :: !PaidTwice(Next(w, CommitSettle(op)), e)
  {
    forall e ensures !PaidTwice(Next(w, CommitSettle(op)), e) {
      assert !Threat(w, c, op, e);
      LateSettlePaysTwiceIff(w, c, op, e);
    }
  }

  /** Either the fee leaves without a double payment, or the step is quiet. */
  lemma HarmlessStep(w: World, s: Step, c: Uuid)
    requires Exposed(w, c) && Harmless(w, c) && OnTimeStep(w, s)
    ensures PaidInv(Next(w, s)) || (Exposed(Next(w, s), c) && Harmless(Next(w, s), c))
  {
    var ch := ChangeOf(w, s);
    if ContestOf(w, s) == c && ch.Called? && ch.escrowSeen {
      HarmlessCancel(w, c, s.op);
      StepDrains(w, s, c);
      BackToPaid(w, s, c);
    } else if ContestOf(w, s) == c && ch.PaidRanking? && ch.ranked != [] {
      HarmlessSettle(w, c, s.op);
      StepDrains(w, s, c);
      BackToPaid(w, s, c);
    } else {
      StepIsQuiet(w, s, c);
      QuietStep(w, s, c);
    }
  }

  lemma StepIsQuiet(w: World, s: Step, c: Uuid)
    requires Exposed(w, c) && OnTimeStep(w, s)
    requires ContestOf(w, s) == c ==>
             (ChangeOf(w, s).Called? ==> !ChangeOf(w, s).escrowSeen) &&
             (ChangeOf(w, s).PaidRanking? ==> ChangeOf(w, s).ranked == [])
    ensures Quiet(ViewOf(w, c), ViewOf(Next(w, s), c))
  {
    StepShape(w, s);
    if ContestOf(w, s) == c {
      if ChangeOf(w, s).Entered? { EnteredIsCharged(w, s); }
      ChangeIsQuiet(ViewOf(w, c), ViewOf(Next(w, s), c), ChangeOf(w, s));
    }
  }

  lemma {:induction false} HarmlessRun(w: World, steps: seq<Step>, c: Uuid, e: Uuid)
    requires Exposed(w, c) && Harmless(w, c) && OnTime(w, steps)
    ensures !PaidTwice(ContestMoney.Run(w, steps), e)
    decreases |steps|
  {
    if steps == [] {
      ExposedPaidOnce(w, c, e);
    } else {
      HarmlessStep(w, steps[0], c);
      if PaidInv(Next(w, steps[0])) {
        RunKeepsPaid(Next(w, steps[0]), steps[1..]);
        NeverTwice(ContestMoney.Run(w, steps), e);
      } else {
        HarmlessRun(Next(w, steps[0]), steps[1..], c, e);
      }
    }
  }

  // ---------------------------------------------------------------- the exact boundary

  /** Whatever follows, with charged submissions into open contests only, nobody is paid twice. */
  ghost predicate NeverPaysTwice(w: World) {
    forall more, e :: OnTime(w, more) ==> !PaidTwice(ContestMoney.Run(w, more), e)
  }

  lemma CancelRealised(w: World, c: Uuid, op: Uuid, e: Uuid)
    requires Exposed(w, c) && Threat(w, c, op, e) && w.pending[op].CancelSnapshot?
    ensures OnTime(w, [CommitCancel(op)]) && PaidTwice(ContestMoney.Run(w, [CommitCancel(op)]), e)
  {
    LateCancelPaysTwiceIff(w, c, op, e);
    assert [CommitCancel(op)][1..] == [];
  }

  lemma SettleRealised(w: World, c: Uuid, op: Uuid, e: Uuid)
    requires Exposed(w, c) && Threat(w, c, op, e) && w.pending[op].SettleSnapshot?
    ensures var steps := [OpenAccountStep(PlatformRevenue), CommitSettle(op)];
            OnTime(w, steps) && PaidTwice(ContestMoney.Run(w, steps), e)
  {
    var open, commit := OpenAccountStep(PlatformRevenue), CommitSettle(op);
    var w1 := Next(w, open);
    OpenLeavesThreats(w, c, op, e);
    LateSettlePaysTwiceIff(w1, c, op, e);
    RunTwo(w, open, commit);
    assert [open, commit][1..] == [commit] && [commit][1..] == [];
    assert OnTime(w1, [commit]);
  }

  lemma ThreatIsRealised(w: World, c: Uuid, op: Uuid, e: Uuid)
    requires Exposed(w, c) && Threat(w, c, op, e)
    ensures !NeverPaysTwice(w)
  {
    if w.pending[op].CancelSnapshot? { CancelRealised(w, c, op, e); } else { SettleRealised(w, c, op, e); }
  }

  lemma OpenLeavesThreats(w: World, c: Uuid, op: Uuid, e: Uuid)
    requires Exposed(w, c) && Threat(w, c, op, e) && w.pending[op].SettleSnapshot?
    ensures var w1 := Next(w, OpenAccountStep(PlatformRevenue));
            Exposed(w1, c) && Threat(w1, c, op, e) && Exists(w1, PlatformRevenue)
  {
    var open := OpenAccountStep(PlatformRevenue);
    var w1 := Next(w, open);
    StepKeepsInv(w, open);
    StepKeepsRankings(w, open);
    OpenKeepsViews(w, PlatformRevenue);
    StillExposed(w, w1, c);
  }

  lemma OpenKeepsViews(w: World, a: AccountId)
    requires Base(w) && !a.ContestEscrow?
    ensures forall d :: ViewOf(Next(w, OpenAccountStep(a)), d) == ViewOf(w, d)
  {
    OpenKeepsValid(w.books, a);
    BooksOnlyFrame(w, Next(w, OpenAccountStep(a)));
  }

  /** The exact condition. After a run whose charged submissions avoid closed contests, let one enter a
      closed contest. Then nobody can ever be paid twice if and only if no pending cancellation has an
      entry with a prize as its only refund left, and no pending first settlement would pay a refunded
      entry out of the late fee. */
  lemma LateEntryPaysTwiceIff(steps: seq<Step>, s: Step)
    requires OnTime(START, steps) && Charges(ContestMoney.Run(START, steps), s)
    requires var w := ContestMoney.Run(START, steps); s.c in w.contests && IsClosed(w.contests[s.c].status)
    ensures var w' := Next(ContestMoney.Run(START, steps), s);
            NeverPaysTwice(w') <==> forall op, e :: !Threat(w', s.c, op, e)
  {
    OnTimeRun(steps);
    var w, c := ContestMoney.Run(START, steps), s.c;
    var w' := Next(w, s);
    ChargedView(w, s);
    ChargedSubmission(w, s);
    if Drained(ViewOf(w, c)) {
      EntersDrained(w, s);
      if op, e :| Threat(w', c, op, e) {
        ThreatIsRealised(w', c, op, e);
      } else {
        forall more, e | OnTime(w', more)
          ensures !PaidTwice(ContestMoney.Run(w', more), e)
        {
          HarmlessRun(w', more, c, e);
        }
      }
    } else {
      StepKeepsPaid(w, s);
      forall op, e ensures !Threat(w', c, op, e) { NoThreat(w', c, op, e); }
      forall more, e | OnTime(w', more) ensures !PaidTwice(ContestMoney.Run(w', more), e) {
        RunKeepsPaid(w', more);
        NeverTwice(ContestMoney.Run(w', more), e);
      }
    }
  }

  lemma EntersDrained(w: World, s: Step)
    requires PaidInv(w) && Charges(w, s) && Drained(ViewOf(w, s.c))
    ensures Exposed(Next(w, s), s.c)
  {
    var w', c := Next(w, s), s.c;
    ChargedView(w, s);
    ChargedSubmission(w, s);
    StepKeepsRankings(w, s);
    forall d | d != c ensures PaidView(ViewOf(w', d)) { assert PaidView(ViewOf(w, d)); }
    assert PaidView(ViewOf(w, c));
    assert ViewOf(w', c).contest == Some(w'.contests[c]) && ViewOf(w', c).escrow == EscrowIn(w'.books, c);
  }

  /** A threat needs a refund or a prize in the contest. */
  lemma ThreatMeansPaid(w: World, c: Uuid, op: Uuid, e: Uuid)
    requires Inv(w) && Threat(w, c, op, e)
    ensures ViewOf(w, c).refunded != {} || SomePrize(ViewOf(w, c))
  {
    var v, snap := ViewOf(w, c), w.pending[op];
    assert GoodSnapshot(w, snap);
    if CancelThreat(w, snap, e) {
      assert e in Unrefunded(w.books, snap.entries);
      assert e in v.entries;
    } else {
      assert e in snap.ranked;
      assert e in v.refunded;
    }
  }

  lemma NoThreat(w: World, c: Uuid, op: Uuid, e: Uuid)
    requires PaidInv(w) && ViewOf(w, c).escrow.Some? && ViewOf(w, c).escrow.value > 0
    ensures !Threat(w, c, op, e)
  {
    assert PaidView(ViewOf(w, c));
    if Threat(w, c, op, e) { ThreatMeansPaid(w, c, op, e); }
  }
}
