/**
 Whose money the exits of a contest move: refunds reach the users who entered, prizes the entries that
 earned them, and no other account changes.
 */
module ContestWallets {
  import opened Ledger
  import opened Ranking
  import opened ContestMoney
  import opened ContestTransfers
  import opened ContestSafety
  import opened ContestClosing
  import opened ContestGuarantees

  lemma RunIsUnique(steps: seq<Step>)
    ensures OneEntryPerUser(ContestMoney.Run(START, steps).entries)
  {
    RunKeepsUnique(START, steps);
  }

  // ---------------------------------------------------------------- refunds

  /** The entry is refunded by this cancellation, and was not before. */
  predicate RefundedNow(w: World, snap: Snapshot, e: Uuid)
    requires snap.CancelSnapshot?
  {
    e in snap.entries && e in w.entries && !KeyUsed(w.books.journal, RefundKey(e))
  }

  predicate NothingDue(w: World, snap: Snapshot, u: Uuid)
    requires snap.CancelSnapshot?
  {
    forall e :: e in snap.entries ==> !(RefundedNow(w, snap, e) && w.entries[e].user == u)
  }

  /** The wallet behind each newly refunded entry gained exactly the fee, and every other wallet nothing. */
  ghost predicate OwnersRefunded(w: World, snap: Snapshot, b': Books, fee: int)
    requires snap.CancelSnapshot?
  {
    && (forall e :: RefundedNow(w, snap, e) ==> Gains(w.books, b', UserAvailable(w.entries[e].user), fee))
    && (forall u :: UserAvailable(u) in w.books.balances && NothingDue(w, snap, u) ==>
          Gains(w.books, b', UserAvailable(u), 0))
  }

  lemma DueToOwner(w: World, snap: Snapshot, e: Uuid)
    requires snap.CancelSnapshot? && GoodSnapshot(w, snap) && OneEntryPerUser(w.entries) && RefundedNow(w, snap, e)
    ensures DueTo(w.books, w.entries, snap.entries, w.entries[e].user) == {e}
  {
  }

  lemma DueToNobody(w: World, snap: Snapshot, u: Uuid)
    requires snap.CancelSnapshot? && NothingDue(w, snap, u)
    ensures DueTo(w.books, w.entries, snap.entries, u) == {}
  {
  }

  lemma OwnersFromWallets(w: World, snap: Snapshot, b': Books, fee: int)
    requires Base(w) && OneEntryPerUser(w.entries) && snap.CancelSnapshot? && GoodSnapshot(w, snap)
    requires WalletsRefunded(w.books, b', w.entries, snap.contest, fee, snap.entries)
    ensures OwnersRefunded(w, snap, b', fee)
  {
    forall e | RefundedNow(w, snap, e) ensures Gains(w.books, b', UserAvailable(w.entries[e].user), fee) {
      DueToOwner(w, snap, e);
    }
    forall u | UserAvailable(u) in w.books.balances && NothingDue(w, snap, u)
      ensures Gains(w.books, b', UserAvailable(u), 0)
    {
      DueToNobody(w, snap, u);
    }
  }

  /** In every run, when a pending cancellation commits: the wallet behind each newly refunded entry grows by
      exactly the fee, and every other wallet stays as it is. */
  lemma RefundsReachOwners(steps: seq<Step>, op: Uuid)
    requires var w := ContestMoney.Run(START, steps);
             op in w.pending && w.pending[op].CancelSnapshot? && Cancel(w, w.pending[op]).Some?
    ensures var w := ContestMoney.Run(START, steps); var snap := w.pending[op];
            && snap.contest in w.contests
            && OwnersRefunded(w, snap, Cancel(w, snap).value.books, w.contests[snap.contest].fee)
  {
    OpenRun(steps);
    RunIsUnique(steps);
    var w := ContestMoney.Run(START, steps);
    var snap := w.pending[op];
    assert GoodSnapshot(w, snap);
    CancelWallets(w, snap);
    OwnersFromWallets(w, snap, Cancel(w, snap).value.books, w.contests[snap.contest].fee);
  }

  // ---------------------------------------------------------------- prizes

  lemma {:induction false} NoLineFor(prizes: seq<int>, users: seq<Uuid>, a: AccountId)
    requires |prizes| <= |users| && forall i :: 0 <= i < |prizes| ==> a != UserAvailable(users[i])
    ensures LinesTotal(WinnerLines(prizes, users), a) == 0
  {
    if prizes != [] {
      var head := if prizes[0] > 0 then [Line(UserAvailable(users[0]), prizes[0])] else [];
      LinesTotalConcat(head, WinnerLines(prizes[1..], users[1..]), a);
      NoLineFor(prizes[1..], users[1..], a);
    }
  }

  /** An account that is neither this escrow, nor the platform's, nor the wallet of a paid place keeps its
      balance through a payout. */
  lemma PayOutTouchesNobodyElse(b: Books, c: Uuid, contest: Contest, users: seq<Uuid>, a: AccountId)
    requires Valid(b) && ContestEscrow(c) in b.balances && b.balances[ContestEscrow(c)] > 0 && users != []
    requires PayOut(b, c, contest, users).Some? && a in b.balances && a !in {ContestEscrow(c), PlatformRevenue}
    requires forall i :: 0 <= i < |PayOut(b, c, contest, users).value.prizes| ==> a != UserAvailable(users[i])
    ensures Gains(b, PayOut(b, c, contest, users).value.books, a, 0)
  {
    var gross, p := b.balances[ContestEscrow(c)], PayOut(b, c, contest, users).value;
    var commission, winners := gross - SumSeq(p.prizes), WinnerLines(p.prizes, users);
    assert PostSettlement(b, c, commission, winners) == Some(p.books);
    SettlementTouches(b, c, commission, winners, a);
    NoLineFor(p.prizes, users, a);
  }

  lemma SettlementTouches(b: Books, c: Uuid, commission: int, winners: seq<Line>, a: AccountId)
    requires Valid(b) && ContestEscrow(c) in b.balances && b.balances[ContestEscrow(c)] > 0
    requires PostSettlement(b, c, commission, winners).Some? && a in b.balances
    requires a !in {ContestEscrow(c), PlatformRevenue}
    ensures Gains(b, PostSettlement(b, c, commission, winners).value, a, LinesTotal(winners, a))
  {
    var lines := SettlementLines(c, b.balances[ContestEscrow(c)], commission, winners);
    SettlementTotal(c, b.balances[ContestEscrow(c)], commission, winners, a);
    if Post(b, SettlementKey(c), lines).1.Posted? { PostedBalances(b, SettlementKey(c), lines); }
  }
}
