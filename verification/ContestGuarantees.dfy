/**
 What holds of every run, however stale its guards: exact escrow accounting while a contest is open, and
 exactly when a cancellation or a settlement commits.
 */
module ContestGuarantees {
  import opened Ledger
  import opened Ranking
  import opened ContestMoney
  import opened ContestTransfers
  import opened ContestSafety
  import opened ContestClosing
  import opened ContestPayments

  predicate IsOpen(s: Status) { s in {Published, Locked, Scoring, Scored} }

  // ---------------------------------------------------------------- invariant of every run

  /** Nothing was refunded and no settlement was posted. */
  ghost predicate Untouched(v: View) { v.refunded == {} && !v.settled }

  /** While a contest is open its escrow holds the fees of the charged entries, all of them active, and
      nothing has left it. */
  ghost predicate OpenView(v: View) {
    && (v.escrow.None? ==> Untouched(v) && (v.contest.Some? ==> v.contest.value.status in {Draft, Cancelled}))
    && (v.escrow.Some? ==> v.contest.Some? && v.contest.value.status != Draft)
    && (v.escrow.Some? && IsOpen(v.contest.value.status) ==>
          && Untouched(v)
          && v.escrow.value == v.contest.value.fee * |ChargedActive(v.entries)|
          && (forall e :: e in v.entries ==> v.entries[e].status == ACTIVE))
  }

  /** A snapshot lists nobody twice, and a settlement was read under an existing escrow. */
  ghost predicate SnapshotOk(w: World, op: Uuid) {
    op in w.pending ==>
      match w.pending[op]
      case CancelSnapshot(_, _, ids) => Distinct(ids)
      case SettleSnapshot(c, ranked) => Distinct(ranked) && ViewOf(w, c).escrow.Some?
  }

  ghost predicate OpenInv(w: World) {
    Inv(w) && (forall op :: SnapshotOk(w, op)) && forall c :: OpenView(ViewOf(w, c))
  }

  lemma EnteredKeepsOpen(v: View, v': View, e: Uuid, x: Entry)
    requires GoodView(v) && OpenView(v) && Changes(v, v', Entered(e, x))
    ensures OpenView(v')
  {
    ChargedAfterEntry(v.entries, e, x);
    FeeTimes(v.contest.value.fee, |ChargedActive(v'.entries)|);
  }

  lemma CalledKeepsOpen(v: View, v': View, ids: seq<Uuid>, seen: bool)
    requires OpenView(v) && Changes(v, v', Called(ids, seen))
    ensures OpenView(v')
  {
    if !seen { assert v'.refunded == v.refunded; }
  }

  lemma RankedKeepsOpen(v: View, v': View, ranked: seq<Uuid>)
    requires OpenView(v) && Changes(v, v', PaidRanking(ranked))
    ensures OpenView(v')
  {
  }

  lemma OpenedKeepsOpen(v: View, v': View)
    requires GoodView(v) && OpenView(v) && Changes(v, v', Opened)
    ensures OpenView(v')
  {
    assert ChargedActive(v'.entries) == {};
    assert v'.contest.value.fee * 0 == 0;
  }

  lemma ChangeKeepsOpen(v: View, v': View, ch: Change)
    requires GoodView(v) && OpenView(v) && Changes(v, v', ch)
    ensures OpenView(v')
  {
    match ch
    case Entered(e, x) => EnteredKeepsOpen(v, v', e, x);
    case Opened => OpenedKeepsOpen(v, v');
    case Called(ids, seen) => CalledKeepsOpen(v, v', ids, seen);
    case PaidRanking(ranked) => RankedKeepsOpen(v, v', ranked);
    case _ =>
  }

  lemma StepKeepsOpenView(w: World, s: Step, c: Uuid)
    requires OpenInv(w)
    ensures OpenView(ViewOf(Next(w, s), c))
  {
    assert GoodView(ViewOf(w, c)) && OpenView(ViewOf(w, c));
    StepShape(w, s);
    if c == ContestOf(w, s) { ChangeKeepsOpen(ViewOf(w, c), ViewOf(Next(w, s), c), ChangeOf(w, s)); }
  }

  lemma ChangeKeepsEscrow(v: View, v': View, ch: Change)
    requires Changes(v, v', ch) && v.escrow.Some?
    ensures v'.escrow.Some?
  {
  }

  lemma StepKeepsEscrow(w: World, s: Step, c: Uuid)
    requires Inv(w) && ViewOf(w, c).escrow.Some?
    ensures ViewOf(Next(w, s), c).escrow.Some?
  {
    StepShape(w, s);
    if c == ContestOf(w, s) { ChangeKeepsEscrow(ViewOf(w, c), ViewOf(Next(w, s), c), ChangeOf(w, s)); }
  }

  lemma StepKeepsSnapshots(w: World, s: Step, op: Uuid)
    requires OpenInv(w)
    ensures SnapshotOk(Next(w, s), op)
  {
    var w' := Next(w, s);
    if op in w'.pending {
      var c := w'.pending[op].contest;
      NextPending(w, s, op);
      assert SnapshotOk(w, op) && OpenView(ViewOf(w, c));
      if ViewOf(w, c).escrow.Some? { StepKeepsEscrow(w, s, c); }
    }
  }

  lemma StepKeepsOpen(w: World, s: Step)
    requires OpenInv(w)
    ensures OpenInv(Next(w, s))
  {
    StepKeepsInv(w, s);
    forall c ensures OpenView(ViewOf(Next(w, s), c)) { StepKeepsOpenView(w, s, c); }
    forall op ensures SnapshotOk(Next(w, s), op) { StepKeepsSnapshots(w, s, op); }
  }

  lemma {:induction false} RunKeepsOpen(w: World, steps: seq<Step>)
    requires OpenInv(w)
    ensures OpenInv(ContestMoney.Run(w, steps))
    decreases |steps|
  {
    if steps != [] {
      StepKeepsOpen(w, steps[0]);
      RunKeepsOpen(Next(w, steps[0]), steps[1..]);
    }
  }

  lemma StartOpen()
    ensures OpenInv(START)
  {
    StartInv();
    forall c ensures OpenView(ViewOf(START, c)) { assert ViewOf(START, c).refunded == {}; }
  }

  lemma OpenRun(steps: seq<Step>)
    ensures OpenInv(ContestMoney.Run(START, steps))
  {
    StartOpen();
    RunKeepsOpen(START, steps);
  }

  // ---------------------------------------------------------------- the escrow

  /** From publication to scoring the escrow holds exactly the fees of the entries that were
      charged, and so fee times all active entries if and only if no entry key was reused. */
  lemma EscrowExact(steps: seq<Step>, c: Uuid)
    ensures var w := ContestMoney.Run(START, steps);
            c in w.contests && IsOpen(w.contests[c].status) ==>
              && Exists(w, ContestEscrow(c))
              && w.books.balances[ContestEscrow(c)] == w.contests[c].fee * |ChargedActive(ViewOf(w, c).entries)|
              && (w.books.balances[ContestEscrow(c)] == w.contests[c].fee * |Active(ViewOf(w, c).entries)| <==>
                    forall e :: e in Active(ViewOf(w, c).entries) ==> w.entries[e].charged)
  {
    OpenRun(steps);
    var w := ContestMoney.Run(START, steps);
    var v := ViewOf(w, c);
    assert GoodView(v) && OpenView(v);
    if c in w.contests && IsOpen(w.contests[c].status) {
      ChargedAtMostActive(v.entries);
      MultiplyMonotone(w.contests[c].fee, |ChargedActive(v.entries)|, |Active(v.entries)|);
    }
  }

  // ---------------------------------------------------------------- when a cancellation commits

  /** What a pending cancellation of an open contest finds. */
  lemma OpenCancelFacts(w: World, op: Uuid)
    requires OpenInv(w) && op in w.pending && w.pending[op].CancelSnapshot? && w.pending[op].escrowSeen
    requires IsOpen(w.contests[w.pending[op].contest].status)
    ensures var c, ids := w.pending[op].contest, w.pending[op].entries;
            var v := ViewOf(w, c);
            && w.books.balances[ContestEscrow(c)] == w.contests[c].fee * |ChargedActive(v.entries)|
            && Unrefunded(w.books, ids) == Elements(ids) <= Active(v.entries) == v.entries.Keys
            && |Elements(ids)| == |ids|
  {
    var snap := w.pending[op];
    var v := ViewOf(w, snap.contest);
    assert GoodSnapshot(w, snap) && OpenView(v) && SnapshotOk(w, op);
    UnrefundedInView(w, snap.contest, snap.entries);
    DistinctSize(snap.entries);
    forall id | id in snap.entries ensures id in Active(v.entries) { assert v.entries[id] == w.entries[id]; }
  }

  /** With the escrow seen, a cancellation commits exactly when the refunds use up the escrow. */
  lemma SeenCancelIff(w: World, snap: Snapshot)
    requires Base(w) && snap.CancelSnapshot? && snap.escrowSeen && GoodSnapshot(w, snap)
    ensures var c := snap.contest; var escrow := w.books.balances[ContestEscrow(c)];
            && (RefundAll(w.books, c, w.contests[c].fee, w.entries, snap.entries).Some? <==>
                  w.contests[c].fee * |Unrefunded(w.books, snap.entries)| <= escrow)
            && (Cancel(w, snap).Some? <==> escrow == w.contests[c].fee * |Unrefunded(w.books, snap.entries)|)
  {
    RefundAllEscrow(w.books, snap.contest, w.contests[snap.contest].fee, w.entries, snap.entries);
  }

  /** What a committed cancellation leaves: exactly the listed entries are newly refunded, each to its own
      user's wallet, and the escrow, when it had been seen, is empty. */
  ghost predicate CancelledAs(w: World, snap: Snapshot, w': World)
    requires snap.CancelSnapshot?
  {
    && snap.contest in w'.contests && w'.contests[snap.contest].status == Cancelled
    && w'.entries.Keys == w.entries.Keys
    && (forall e :: e in w.entries ==>
          (w'.entries[e].status == REFUNDED <==> e in snap.entries || w.entries[e].status == REFUNDED))
    && (if snap.escrowSeen then EscrowIn(w'.books, snap.contest) == Some(0)
        else w'.books == w.books && w'.entries == w.entries)
    && WalletsRefunded(w.books, w'.books, w.entries, snap.contest, w'.contests[snap.contest].fee, snap.entries)
  }

  lemma CancelledRight(w: World, snap: Snapshot)
    requires Base(w) && snap.CancelSnapshot? && GoodSnapshot(w, snap) && Cancel(w, snap).Some?
    ensures CancelledAs(w, snap, Cancel(w, snap).value)
  {
    CancelWallets(w, snap);
    CancelRows(w, snap);
  }

  lemma CancelRows(w: World, snap: Snapshot)
    requires snap.CancelSnapshot? && Cancel(w, snap).Some?
    ensures var w' := Cancel(w, snap).value;
            && snap.contest in w.contests
            && w'.contests == w.contests[snap.contest := w.contests[snap.contest].(status := Cancelled)]
            && w'.entries == MarkRefunded(w.entries, snap.entries)
            && (if snap.escrowSeen then EscrowIn(w'.books, snap.contest) == Some(0)
                else w'.books == w.books && w'.entries == w.entries)
  {
    if !snap.escrowSeen { assert MarkRefunded(w.entries, snap.entries) == w.entries; }
  }

  lemma EqualProducts(k: int, x: int, y: int)
    requires k > 0
    ensures k * x == k * y <==> x == y
    ensures k * x <= k * y <==> x <= y
  {
    MultiplyMonotone(k, x, y);
    MultiplyMonotone(k, y, x);
  }

  /** While its contest is open, a pending cancellation commits if and only if it had not seen the escrow,
      or it lists exactly as many entries as were charged. */
  lemma OpenCancelIff(w: World, op: Uuid)
    requires OpenInv(w) && op in w.pending && w.pending[op].CancelSnapshot?
    requires IsOpen(w.contests[w.pending[op].contest].status)
    ensures var snap := w.pending[op]; var charged := |ChargedActive(ViewOf(w, snap.contest).entries)|;
            && (Cancel(w, snap).Some? <==> !snap.escrowSeen || |snap.entries| == charged)
            && (snap.escrowSeen ==>
                  (RefundAll(w.books, snap.contest, w.contests[snap.contest].fee, w.entries, snap.entries).Some? <==>
                     |snap.entries| <= charged))
  {
    var snap := w.pending[op];
    assert GoodSnapshot(w, snap);
    if snap.escrowSeen {
      OpenCancelFacts(w, op);
      SeenCancelIff(w, snap);
      EqualProducts(w.contests[snap.contest].fee, |snap.entries|, |ChargedActive(ViewOf(w, snap.contest).entries)|);
    }
  }

  /** With every active entry charged, that is to list them all, and the refund loop never runs short. */
  lemma ChargedCancelIff(w: World, op: Uuid)
    requires OpenInv(w) && op in w.pending && w.pending[op].CancelSnapshot? && w.pending[op].escrowSeen
    requires IsOpen(w.contests[w.pending[op].contest].status)
    requires AllCharged(ViewOf(w, w.pending[op].contest).entries)
    ensures var snap := w.pending[op]; var active := Active(ViewOf(w, snap.contest).entries);
            && RefundAll(w.books, snap.contest, w.contests[snap.contest].fee, w.entries, snap.entries).Some?
            && (Cancel(w, snap).Some? <==> forall e :: e in active ==> e in snap.entries)
  {
    var snap := w.pending[op];
    var v := ViewOf(w, snap.contest);
    OpenCancelIff(w, op);
    OpenCancelFacts(w, op);
    assert ChargedActive(v.entries) == Active(v.entries);
    SubsetSizes(Elements(snap.entries), Active(v.entries));
    assert (forall e :: e in Active(v.entries) ==> e in snap.entries) <==> Elements(snap.entries) == Active(v.entries);
  }

  ghost predicate AllCharged(entries: map<Uuid, Entry>) {
    forall e :: e in Active(entries) ==> entries[e].charged
  }

  lemma SubsetSizes(a: set<Uuid>, b: set<Uuid>)
    requires a <= b
    ensures |a| <= |b| && (|a| == |b| <==> a == b)
  {
    assert b == a + (b - a);
  }

  /** When a pending cancellation commits, in every run. It commits if it had not seen an escrow, and
      otherwise if and only if the refunds it still owes use up the escrow. While the contest is open that is
      to list as many entries as were charged; if all were charged, to list every active entry. */
  lemma CancelCommitsIff(steps: seq<Step>, op: Uuid)
    requires var w := ContestMoney.Run(START, steps); op in w.pending && w.pending[op].CancelSnapshot?
    ensures var w := ContestMoney.Run(START, steps);
            var snap := w.pending[op]; var c := snap.contest;
            && c in w.contests
            && (!snap.escrowSeen ==> Cancel(w, snap).Some?)
            && (snap.escrowSeen ==>
                  && Exists(w, ContestEscrow(c))
                  && (Cancel(w, snap).Some? <==>
                        w.books.balances[ContestEscrow(c)] == w.contests[c].fee * |Unrefunded(w.books, snap.entries)|))
            && (snap.escrowSeen && IsOpen(w.contests[c].status) ==>
                  && (Cancel(w, snap).Some? <==> |snap.entries| == |ChargedActive(ViewOf(w, c).entries)|)
                  && (AllCharged(ViewOf(w, c).entries) ==>
                        && RefundAll(w.books, c, w.contests[c].fee, w.entries, snap.entries).Some?
                        && (Cancel(w, snap).Some? <==>
                             forall e :: e in Active(ViewOf(w, c).entries) ==> e in snap.entries)))
            && (Cancel(w, snap).Some? ==> CancelledAs(w, snap, Cancel(w, snap).value))
  {
    OpenRun(steps);
    var w := ContestMoney.Run(START, steps);
    var snap := w.pending[op];
    assert GoodSnapshot(w, snap);
    if snap.escrowSeen { SeenCancelIff(w, snap); }
    if snap.escrowSeen && IsOpen(w.contests[snap.contest].status) {
      OpenCancelIff(w, op);
      if AllCharged(ViewOf(w, snap.contest).entries) { ChargedCancelIff(w, op); }
    }
    if Cancel(w, snap).Some? { CancelledRight(w, snap); }
  }

  /** A cancellation that was read before the lock and overtaken by scoring: the status is not checked
      again, so it still closes the contest, exactly when it had not seen the escrow or lists as many
      entries as were charged. */
  lemma OvertakenCancelIff(steps: seq<Step>, op: Uuid)
    requires var w := ContestMoney.Run(START, steps);
             && op in w.pending && w.pending[op].CancelSnapshot? && w.pending[op].contest in w.contests
             && w.contests[w.pending[op].contest].status in {Scoring, Scored}
    ensures var w := ContestMoney.Run(START, steps);
            var snap, w' := w.pending[op], Next(w, CommitCancel(op));
            && snap.contest in w'.contests
            && (w'.contests[snap.contest].status == Cancelled <==>
                  !snap.escrowSeen || |snap.entries| == |ChargedActive(ViewOf(w, snap.contest).entries)|)
            && (w'.contests[snap.contest].status == Cancelled ==> CancelledAs(w, snap, w'))
  {
    OpenRun(steps);
    OvertakenCancel(ContestMoney.Run(START, steps), op);
  }

  lemma OvertakenCancel(w: World, op: Uuid)
    requires OpenInv(w) && op in w.pending && w.pending[op].CancelSnapshot? && w.pending[op].contest in w.contests
    requires w.contests[w.pending[op].contest].status in {Scoring, Scored}
    ensures var snap, w' := w.pending[op], Next(w, CommitCancel(op));
            && snap.contest in w'.contests
            && (w'.contests[snap.contest].status == Cancelled <==>
                  !snap.escrowSeen || |snap.entries| == |ChargedActive(ViewOf(w, snap.contest).entries)|)
            && (w'.contests[snap.contest].status == Cancelled ==> CancelledAs(w, snap, w'))
  {
    var snap, w' := w.pending[op], Next(w, CommitCancel(op));
    OpenCancelIff(w, op);
    assert GoodSnapshot(w, snap);
    if Cancel(w, snap).Some? {
      CancelledRight(w, snap);
      SameRowsSameOutcome(w, snap, Cancel(w, snap).value, w');
    } else {
      assert w'.contests == w.contests;
    }
  }

  lemma SameRowsSameOutcome(w: World, snap: Snapshot, w1: World, w2: World)
    requires snap.CancelSnapshot? && CancelledAs(w, snap, w1)
    requires w2.contests == w1.contests && w2.entries == w1.entries && w2.books == w1.books
    ensures CancelledAs(w, snap, w2)
  {
  }

  // ---------------------------------------------------------------- when a settlement commits

  /** There is nothing to pay out, or nobody to pay it to. */
  predicate NothingToPay(w: World, snap: Snapshot)
    requires snap.SettleSnapshot?
  {
    EscrowIn(w.books, snap.contest) == Some(0) || snap.ranked == []
  }

  /** What a committed settlement leaves: exactly the ranked entries are newly settled, each with its place;
      what there was to pay left the escrow, with the commission rounded up (everything, without
      positions) for the platform. */
  ghost predicate SettledAs(w: World, snap: Snapshot, w': World)
    requires snap.SettleSnapshot?
  {
    && w'.entries.Keys == w.entries.Keys
    && (forall i :: 0 <= i < |snap.ranked| ==>
          snap.ranked[i] in w'.entries && w'.entries[snap.ranked[i]].finalRank == Some(i + 1))
    && (forall e :: e in w.entries ==>
          (w'.entries[e].status == SETTLED <==> e in snap.ranked || w.entries[e].status == SETTLED))
    && (if NothingToPay(w, snap) then w'.books == w.books else PaidByContest(w, snap.contest, w'))
  }

  ghost predicate PaidByContest(w: World, c: Uuid, w': World) {
    && c in w.contests && EscrowIn(w.books, c).Some? && EscrowIn(w'.books, c) == Some(0)
    && PlatformRevenue in w.books.balances && PlatformRevenue in w'.books.balances
    && w'.books.balances[PlatformRevenue] ==
         w.books.balances[PlatformRevenue] + PlatformShare(EscrowIn(w.books, c).value, w.contests[c])
  }

  /** The ceiling of the commission, or the whole gross when no position is paid. */
  function PlatformShare(gross: int, contest: Contest): int {
    if Extent(contest.template) == 0 then gross else (gross * contest.commissionBps + 9999) / 10000
  }

  lemma PaidByContestHolds(w: World, snap: Snapshot)
    requires snap.SettleSnapshot? && Valid(w.books) && Settle(w, snap).Some? && snap.ranked != []
    requires w.books.balances[ContestEscrow(snap.contest)] > 0
    ensures PaidByContest(w, snap.contest, Settle(w, snap).value)
  {
    var gross, contest := w.books.balances[ContestEscrow(snap.contest)], w.contests[snap.contest];
    PayOutEffect(w.books, snap.contest, contest, Users(w.entries, snap.ranked));
    PrizesFacts(gross, contest.commissionBps, contest.template, |snap.ranked|);
  }

  lemma RanksWritten(w: World, snap: Snapshot)
    requires snap.SettleSnapshot? && Settle(w, snap).Some? && Distinct(snap.ranked)
    ensures var w' := Settle(w, snap).value;
            forall i :: 0 <= i < |snap.ranked| ==>
              snap.ranked[i] in w'.entries && w'.entries[snap.ranked[i]].finalRank == Some(i + 1)
  {
    var ranked, w' := snap.ranked, Settle(w, snap).value;
    if w.books.balances[ContestEscrow(snap.contest)] > 0 && ranked != [] {
      var p := PayOut(w.books, snap.contest, w.contests[snap.contest], Users(w.entries, ranked)).value;
      WriteRanksInOrder(WritePrizes(w.entries, ranked, p.prizes), ranked);
    } else {
      WriteRanksInOrder(w.entries, ranked);
    }
  }

  lemma SettledRight(w: World, snap: Snapshot)
    requires Inv(w) && snap.SettleSnapshot? && GoodSnapshot(w, snap) && Distinct(snap.ranked) && Settle(w, snap).Some?
    ensures SettledAs(w, snap, Settle(w, snap).value)
  {
    assert GoodView(ViewOf(w, snap.contest));
    RanksWritten(w, snap);
    SettleEntries(w, snap);
    if NothingToPay(w, snap) { SettleBooks(w, snap); } else { PaidByContestHolds(w, snap); }
  }

  /** When a pending settlement commits, in every run: with the platform's account in place, if and only if
      there is nothing, or nobody, to pay, or it is the first to pay and the template has no positions, or
      the commission rate is not zero and any pool can be split. While the contest is scored it is the
      first. */
  lemma SettleCommitsIff(steps: seq<Step>, op: Uuid)
    requires var w := ContestMoney.Run(START, steps); op in w.pending && w.pending[op].SettleSnapshot?
    ensures var w := ContestMoney.Run(START, steps);
            var snap := w.pending[op]; var c := snap.contest;
            && c in w.contests && Exists(w, ContestEscrow(c))
            && (Settle(w, snap).Some? <==>
                  && Exists(w, PlatformRevenue)
                  && (|| NothingToPay(w, snap)
                      || (&& !KeyUsed(w.books.journal, SettlementKey(c))
                          && CanPayOut(w.books.balances[ContestEscrow(c)], w.contests[c], |snap.ranked|))))
            && (w.contests[c].status == Scored ==> !KeyUsed(w.books.journal, SettlementKey(c)))
            && (Settle(w, snap).Some? ==> SettledAs(w, snap, Settle(w, snap).value))
  {
    OpenRun(steps);
    var w := ContestMoney.Run(START, steps);
    var snap := w.pending[op];
    var v := ViewOf(w, snap.contest);
    assert GoodSnapshot(w, snap) && SnapshotOk(w, op) && GoodView(v) && OpenView(v);
    if Exists(w, PlatformRevenue) && !NothingToPay(w, snap) { PaySnapshotIff(w, snap); }
    if Settle(w, snap).Some? { SettledRight(w, snap); }
  }

  lemma PaySnapshotIff(w: World, snap: Snapshot)
    requires Base(w) && snap.SettleSnapshot? && GoodSnapshot(w, snap) && Exists(w, PlatformRevenue)
    requires Exists(w, ContestEscrow(snap.contest)) && w.books.balances[ContestEscrow(snap.contest)] > 0
    requires snap.ranked != []
    ensures Settle(w, snap).Some? <==>
            && !KeyUsed(w.books.journal, SettlementKey(snap.contest))
            && CanPayOut(w.books.balances[ContestEscrow(snap.contest)], w.contests[snap.contest], |snap.ranked|)
  {
    var users := Users(w.entries, snap.ranked);
    forall i | 0 <= i < |users| ensures UserAvailable(users[i]) in w.books.balances {
      assert snap.ranked[i] in snap.ranked;
    }
    PayOutSucceeds(w.books, snap.contest, w.contests[snap.contest], users);
  }

  // ---------------------------------------------------------------- fresh submissions

  /** A settlement was read after scoring, and while its contest is scored it ranks every entry. */
  ghost predicate FreshRanking(v: View, ranked: seq<Uuid>) {
    && v.contest.Some? && v.escrow.Some? && v.contest.value.status in {Scored, Settled, Cancelled}
    && (v.contest.value.status == Scored ==> forall e :: e in v.entries ==> e in ranked)
  }

  ghost predicate FreshSnapshot(w: World, op: Uuid) {
    op in w.pending && w.pending[op].SettleSnapshot? ==>
      FreshRanking(ViewOf(w, w.pending[op].contest), w.pending[op].ranked)
  }

  ghost predicate FreshInv(w: World) {
    OpenInv(w) && forall op :: FreshSnapshot(w, op)
  }

  lemma ChangeKeepsFreshRanking(v: View, v': View, ch: Change, ranked: seq<Uuid>)
    requires Changes(v, v', ch) && FreshRanking(v, ranked) && (ch.Entered? ==> v.contest.value.status == Published)
    ensures FreshRanking(v', ranked)
  {
  }

  lemma ReadIsFresh(w: World, c: Uuid, ranked: seq<Uuid>)
    requires OpenInv(w) && c in w.contests && w.contests[c].status == Scored && ListsActive(w, c, ranked)
    ensures FreshRanking(ViewOf(w, c), ranked)
  {
    var v := ViewOf(w, c);
    assert OpenView(v);
    forall e | e in v.entries ensures e in ranked { assert v.entries[e] == w.entries[e]; }
  }

  lemma OldRankingStaysFresh(w: World, s: Step, c: Uuid, ranked: seq<Uuid>)
    requires Inv(w) && FreshStep(w, s) && FreshRanking(ViewOf(w, c), ranked)
    ensures FreshRanking(ViewOf(Next(w, s), c), ranked)
  {
    StepShape(w, s);
    if c == ContestOf(w, s) {
      if ChangeOf(w, s).Entered? { EnteredIsCharged(w, s); }
      ChangeKeepsFreshRanking(ViewOf(w, c), ViewOf(Next(w, s), c), ChangeOf(w, s), ranked);
    }
  }

  lemma StepKeepsFreshSnapshot(w: World, s: Step, op: Uuid)
    requires FreshInv(w) && FreshStep(w, s)
    ensures FreshSnapshot(Next(w, s), op)
  {
    var w' := Next(w, s);
    if op in w'.pending && w'.pending[op].SettleSnapshot? {
      var snap := w'.pending[op];
      NextPending(w, s, op);
      if op in w.pending && w.pending[op] == snap {
        assert FreshSnapshot(w, op);
        OldRankingStaysFresh(w, s, snap.contest, snap.ranked);
      } else {
        ReadIsFresh(w, s.c, s.ranking);
        SameRowsSameView(w, w', snap.contest);
      }
    }
  }

  lemma StepKeepsFresh(w: World, s: Step)
    requires FreshInv(w) && FreshStep(w, s)
    ensures FreshInv(Next(w, s))
  {
    StepKeepsOpen(w, s);
    forall op ensures FreshSnapshot(Next(w, s), op) { StepKeepsFreshSnapshot(w, s, op); }
  }

  lemma {:induction false} RunKeepsFresh(w: World, steps: seq<Step>)
    requires FreshInv(w) && Fresh(w, steps)
    ensures FreshInv(ContestMoney.Run(w, steps))
    decreases |steps|
  {
    if steps != [] {
      StepKeepsFresh(w, steps[0]);
      RunKeepsFresh(Next(w, steps[0]), steps[1..]);
    }
  }

  lemma FreshStepIsSafe(w: World, s: Step)
    requires FreshInv(w) && FreshStep(w, s)
    ensures SafeStep(w, s) && OnTimeStep(w, s)
  {
    if s.SubmitStep? {
      forall op | op in w.pending ensures w.pending[op] != SettleSnapshot(s.c, []) { assert FreshSnapshot(w, op); }
    }
  }

  /** A submission that commits while its contest is published is safe and on time. */
  lemma {:induction false} FreshIsSafe(w: World, steps: seq<Step>)
    requires FreshInv(w) && Fresh(w, steps)
    ensures Safe(w, steps) && OnTime(w, steps)
    decreases |steps|
  {
    if steps != [] {
      FreshStepIsSafe(w, steps[0]);
      StepKeepsFresh(w, steps[0]);
      FreshIsSafe(Next(w, steps[0]), steps[1..]);
    }
  }

  /** With fresh submissions a settlement of a scored contest that commits settles every entry. */
  lemma FreshSettlesEverybody(steps: seq<Step>, op: Uuid)
    requires Fresh(START, steps)
    requires var w := ContestMoney.Run(START, steps);
             && op in w.pending && w.pending[op].SettleSnapshot? && w.pending[op].contest in w.contests
             && w.contests[w.pending[op].contest].status == Scored && Settle(w, w.pending[op]).Some?
    ensures var w := ContestMoney.Run(START, steps); var w' := Settle(w, w.pending[op]).value;
            forall e :: e in w.entries && w.entries[e].contest == w.pending[op].contest ==>
              e in w'.entries && w'.entries[e].status == SETTLED
  {
    StartOpen();
    RunKeepsFresh(START, steps);
    SettleCommitsIff(steps, op);
    var w := ContestMoney.Run(START, steps);
    assert FreshSnapshot(w, op);
    forall e | e in w.entries && w.entries[e].contest == w.pending[op].contest ensures e in w.pending[op].ranked {
      assert e in ViewOf(w, w.pending[op].contest).entries;
    }
  }

  // ---------------------------------------------------------------- what winners receive

  /** The account's balance grew by the amount. */
  predicate Gains(b: Books, b': Books, a: AccountId, gain: int) {
    a in b.balances && a in b'.balances && b'.balances[a] == b.balances[a] + gain
  }

  lemma PrizesRecorded(w: World, snap: Snapshot, prizes: seq<int>)
    requires snap.SettleSnapshot? && Distinct(snap.ranked) && |prizes| <= |snap.ranked| &&
             forall id :: id in snap.ranked ==> id in w.entries
    ensures var es := WriteRanks(WritePrizes(w.entries, snap.ranked, prizes), snap.ranked);
            forall i :: 0 <= i < |prizes| ==>
              && snap.ranked[i] in es && es[snap.ranked[i]].prize == prizes[i]
              && es[snap.ranked[i]].user == Users(w.entries, snap.ranked)[i]
  {
    WritePrizesInOrder(w.entries, snap.ranked, prizes);
    WritePrizesEffect(w.entries, snap.ranked, prizes);
    WriteRanksEffect(WritePrizes(w.entries, snap.ranked, prizes), snap.ranked);
    forall i | 0 <= i < |prizes| ensures snap.ranked[i] in snap.ranked && snap.ranked[i] in w.entries {}
  }

  lemma PrizePaid(b: Books, c: Uuid, contest: Contest, users: seq<Uuid>, i: nat)
    requires Valid(b) && ContestEscrow(c) in b.balances && b.balances[ContestEscrow(c)] > 0 && users != [] &&
             Distinct(users)
    requires PayOut(b, c, contest, users).Some? && i < |PayOut(b, c, contest, users).value.prizes|
    ensures var p := PayOut(b, c, contest, users).value;
            Gains(b, p.books, UserAvailable(users[i]), p.prizes[i])
  {
    var p := PayOut(b, c, contest, users).value;
    PrizesFacts(b.balances[ContestEscrow(c)], contest.commissionBps, contest.template, |users|);
    WinnerTotal(p.prizes, users, i);
    WalletsCredited(b, c, b.balances[ContestEscrow(c)] - SumSeq(p.prizes), WinnerLines(p.prizes, users), users[i]);
  }

  /** A settlement that commits pays prize i, exactly, to the wallet of the entry in place i and
      records it on that entry. */
  lemma WinnersReceivePrizes(w: World, snap: Snapshot, i: nat)
    requires Base(w) && OneEntryPerUser(w.entries) && snap.SettleSnapshot? && GoodSnapshot(w, snap) &&
             Distinct(snap.ranked)
    requires Exists(w, ContestEscrow(snap.contest)) && w.books.balances[ContestEscrow(snap.contest)] > 0 &&
             snap.ranked != []
    requires Settle(w, snap).Some?
    ensures var w', contest := Settle(w, snap).value, w.contests[snap.contest];
            var r := ComputePrizes(Pool(w.books.balances[ContestEscrow(snap.contest)], contest.commissionBps),
              contest.template, |snap.ranked|);
            && r.Prizes? && |r.amounts| <= |snap.ranked|
            && (i < |r.amounts| ==>
                  && snap.ranked[i] in w'.entries && w'.entries[snap.ranked[i]].prize == r.amounts[i]
                  && Gains(w.books, w'.books, UserAvailable(w'.entries[snap.ranked[i]].user), r.amounts[i]))
  {
    var users := Users(w.entries, snap.ranked);
    var p := PayOut(w.books, snap.contest, w.contests[snap.contest], users).value;
    DistinctUsers(w, snap);
    if i < |p.prizes| { PrizePaid(w.books, snap.contest, w.contests[snap.contest], users, i); }
    PrizesRecorded(w, snap, p.prizes);
  }

  lemma DistinctUsers(w: World, snap: Snapshot)
    requires snap.SettleSnapshot? && GoodSnapshot(w, snap) && OneEntryPerUser(w.entries) && Distinct(snap.ranked)
    ensures Distinct(Users(w.entries, snap.ranked))
  {
  }
}
