/**
 What the two ways out of an escrow do to the books: the refund loop of a cancellation and the
 single journal of a settlement.
 */
module ContestTransfers {
  import opened Ledger
  import opened Ranking
  import opened ContestMoney

  ghost function Elements(ids: seq<Uuid>): set<Uuid> { set id | id in ids }

  /** The entries of the list that have not been refunded yet. */
  ghost function Unrefunded(b: Books, ids: seq<Uuid>): set<Uuid> {
    set id | id in ids && !KeyUsed(b.journal, RefundKey(id))
  }

  ghost predicate HaveWallets(b: Books, entries: map<Uuid, Entry>, ids: seq<Uuid>) {
    forall id :: id in ids ==> id in entries && UserAvailable(entries[id].user) in b.balances
  }

  lemma UnrefundedHead(b: Books, b1: Books, ids: seq<Uuid>)
    requires ids != [] && !KeyUsed(b.journal, RefundKey(ids[0]))
    requires forall k :: KeyUsed(b1.journal, k) <==> KeyUsed(b.journal, k) || k == RefundKey(ids[0])
    ensures |Unrefunded(b, ids)| == |Unrefunded(b1, ids[1..])| + 1
  {
    assert ids[0] !in Unrefunded(b1, ids[1..]);
    assert Unrefunded(b, ids) == {ids[0]} + Unrefunded(b1, ids[1..]) by {
      assert forall id :: id in ids ==> id == ids[0] || id in ids[1..];
    }
  }

  /** What a refund loop that went through did: one fee per unpaid refund left this escrow, no
      other escrow and not the platform moved, and the refunds' keys are used. */
  ghost predicate Refunds(b: Books, b': Books, c: Uuid, fee: Fee, ids: seq<Uuid>) {
    && b'.balances.Keys == b.balances.Keys
    && ContestEscrow(c) in b.balances
    && b'.balances[ContestEscrow(c)] == b.balances[ContestEscrow(c)] - fee * |Unrefunded(b, ids)|
    && (forall a :: a in b.balances && (a.ContestEscrow? || a == PlatformRevenue) && a != ContestEscrow(c) ==>
         b'.balances[a] == b.balances[a])
    && (forall k :: KeyUsed(b'.journal, k) <==> KeyUsed(b.journal, k) || (k.RefundKey? && k.entry in ids))
  }

  lemma RefundOne(b: Books, c: Uuid, fee: Fee, u: Uuid, id: Uuid)
    requires Valid(b) && ContestEscrow(c) in b.balances && UserAvailable(u) in b.balances
    ensures var (b1, r) := Post(b, RefundKey(id), Transfer(ContestEscrow(c), UserAvailable(u), fee));
            && Valid(b1)
            && (KeyUsed(b.journal, RefundKey(id)) ==> !r.Rejected? && b1 == b)
            && (!KeyUsed(b.journal, RefundKey(id)) ==>
                 && (r.Rejected? <==> b.balances[ContestEscrow(c)] < fee)
                 && (!r.Rejected? ==>
                      && b1.balances == b.balances[ContestEscrow(c) := b.balances[ContestEscrow(c)] - fee]
                                                  [UserAvailable(u) := b.balances[UserAvailable(u)] + fee]
                      && (forall k :: KeyUsed(b1.journal, k) <==> KeyUsed(b.journal, k) || k == RefundKey(id))))
  {
    var lines := Transfer(ContestEscrow(c), UserAvailable(u), fee);
    TransferOutcome(b, RefundKey(id), ContestEscrow(c), UserAvailable(u), fee);
    PostKeepsValid(b, RefundKey(id), lines);
    forall k
      ensures KeyUsed(b.journal + [JournalEntry(RefundKey(id), lines)], k) <==>
              KeyUsed(b.journal, k) || k == RefundKey(id)
    {
      KeyUsedAppend(b.journal, JournalEntry(RefundKey(id), lines), k);
    }
  }

  lemma RefundsAfterOne(b: Books, b1: Books, b2: Books, c: Uuid, fee: Fee, u: Uuid, ids: seq<Uuid>)
    requires ids != [] && !KeyUsed(b.journal, RefundKey(ids[0]))
    requires ContestEscrow(c) in b.balances && UserAvailable(u) in b.balances
    requires b1.balances ==
             b.balances[ContestEscrow(c) := b.balances[ContestEscrow(c)] - fee]
                       [UserAvailable(u) := b.balances[UserAvailable(u)] + fee]
    requires forall k :: KeyUsed(b1.journal, k) <==> KeyUsed(b.journal, k) || k == RefundKey(ids[0])
    requires Refunds(b1, b2, c, fee, ids[1..])
    ensures Refunds(b, b2, c, fee, ids)
  {
    UnrefundedHead(b, b1, ids);
    var k := |Unrefunded(b1, ids[1..])|;
    assert fee * (k + 1) == fee * k + fee;
    assert forall x :: x in ids <==> x == ids[0] || x in ids[1..];
  }

  lemma RefundsAfterReplay(b: Books, b2: Books, c: Uuid, fee: Fee, ids: seq<Uuid>)
    requires ids != [] && KeyUsed(b.journal, RefundKey(ids[0]))
    ensures Unrefunded(b, ids) == Unrefunded(b, ids[1..])
    ensures Refunds(b, b2, c, fee, ids[1..]) ==> Refunds(b, b2, c, fee, ids)
  {
  }

  lemma FeeTimes(fee: Fee, k: nat)
    ensures fee * k >= 0
    ensures k > 0 ==> fee * k == fee * (k - 1) + fee >= fee
  {
  }

  // ---------------------------------------------------------------- who is refunded

  /** The listed entries of a user that are still to be refunded. */
  ghost function DueTo(b: Books, entries: map<Uuid, Entry>, ids: seq<Uuid>, u: Uuid): set<Uuid> {
    set id | id in Unrefunded(b, ids) && id in entries && entries[id].user == u
  }

  /** Every wallet gained one fee for each of its owner's entries refunded now, and no account but the wallets
      and this escrow moved. */
  ghost predicate WalletsRefunded(b: Books, b': Books, entries: map<Uuid, Entry>, c: Uuid, fee: int, ids: seq<Uuid>) {
    && (forall u :: UserAvailable(u) in b.balances ==>
          && UserAvailable(u) in b'.balances
          && b'.balances[UserAvailable(u)] == b.balances[UserAvailable(u)] + fee * |DueTo(b, entries, ids, u)|)
    && (forall a :: a in b.balances && !a.UserAvailable? && a != ContestEscrow(c) ==>
          a in b'.balances && b'.balances[a] == b.balances[a])
  }

  lemma DueToHead(b: Books, b1: Books, entries: map<Uuid, Entry>, ids: seq<Uuid>, u: Uuid)
    requires ids != [] && ids[0] in entries && !KeyUsed(b.journal, RefundKey(ids[0]))
    requires forall k :: KeyUsed(b1.journal, k) <==> KeyUsed(b.journal, k) || k == RefundKey(ids[0])
    ensures |DueTo(b, entries, ids, u)| ==
            |DueTo(b1, entries, ids[1..], u)| + if entries[ids[0]].user == u then 1 else 0
  {
    var rest := DueTo(b1, entries, ids[1..], u);
    assert forall id :: id in ids <==> id == ids[0] || id in ids[1..];
    if entries[ids[0]].user == u {
      assert DueTo(b, entries, ids, u) == rest + {ids[0]};
    } else {
      assert DueTo(b, entries, ids, u) == rest;
    }
  }

  lemma WalletsAfterOne(b: Books, b1: Books, b2: Books, entries: map<Uuid, Entry>, c: Uuid, fee: Fee, ids: seq<Uuid>)
    requires ids != [] && ids[0] in entries && !KeyUsed(b.journal, RefundKey(ids[0]))
    requires ContestEscrow(c) in b.balances && UserAvailable(entries[ids[0]].user) in b.balances
    requires var u := entries[ids[0]].user;
             b1.balances == b.balances[ContestEscrow(c) := b.balances[ContestEscrow(c)] - fee]
                                      [UserAvailable(u) := b.balances[UserAvailable(u)] + fee]
    requires forall k :: KeyUsed(b1.journal, k) <==> KeyUsed(b.journal, k) || k == RefundKey(ids[0])
    requires WalletsRefunded(b1, b2, entries, c, fee, ids[1..])
    ensures WalletsRefunded(b, b2, entries, c, fee, ids)
  {
    forall u | UserAvailable(u) in b.balances
      ensures UserAvailable(u) in b2.balances
      ensures b2.balances[UserAvailable(u)] == b.balances[UserAvailable(u)] + fee * |DueTo(b, entries, ids, u)|
    {
      DueToHead(b, b1, entries, ids, u);
      FeeTimes(fee, |DueTo(b, entries, ids, u)|);
    }
  }

  lemma WalletsAfterReplay(b: Books, b2: Books, entries: map<Uuid, Entry>, c: Uuid, fee: Fee, ids: seq<Uuid>)
    requires ids != [] && KeyUsed(b.journal, RefundKey(ids[0])) && WalletsRefunded(b, b2, entries, c, fee, ids[1..])
    ensures WalletsRefunded(b, b2, entries, c, fee, ids)
  {
    assert Unrefunded(b, ids) == Unrefunded(b, ids[1..]);
    forall u ensures DueTo(b, entries, ids, u) == DueTo(b, entries, ids[1..], u) {}
  }

  /** The first step of a refund loop that goes through. */
  lemma FirstRefund(b: Books, c: Uuid, fee: Fee, entries: map<Uuid, Entry>, ids: seq<Uuid>) returns (b1: Books)
    requires Valid(b) && ContestEscrow(c) in b.balances && ids != [] && RefundAll(b, c, fee, entries, ids).Some?
    ensures Valid(b1) && ContestEscrow(c) in b1.balances && ids[0] in entries
    ensures RefundAll(b1, c, fee, entries, ids[1..]) == RefundAll(b, c, fee, entries, ids)
    ensures KeyUsed(b.journal, RefundKey(ids[0])) ==> b1 == b
    ensures !KeyUsed(b.journal, RefundKey(ids[0])) ==>
              var u := entries[ids[0]].user;
              && UserAvailable(u) in b.balances
              && b1.balances == b.balances[ContestEscrow(c) := b.balances[ContestEscrow(c)] - fee]
                                          [UserAvailable(u) := b.balances[UserAvailable(u)] + fee]
              && (forall k :: KeyUsed(b1.journal, k) <==> KeyUsed(b.journal, k) || k == RefundKey(ids[0]))
  {
    var u := entries[ids[0]].user;
    b1 := Post(b, RefundKey(ids[0]), Transfer(ContestEscrow(c), UserAvailable(u), fee)).0;
    RefundOne(b, c, fee, u, ids[0]);
  }

  /** A refund loop that goes through pays every refund to the entry's own user. */
  lemma {:induction false} RefundAllWallets(b: Books, c: Uuid, fee: Fee, entries: map<Uuid, Entry>, ids: seq<Uuid>)
    requires Valid(b) && ContestEscrow(c) in b.balances && RefundAll(b, c, fee, entries, ids).Some?
    ensures WalletsRefunded(b, RefundAll(b, c, fee, entries, ids).value, entries, c, fee, ids)
    decreases |ids|
  {
    if ids == [] {
      NobodyRefunded(b, entries, c, fee);
    } else {
      var b1 := FirstRefund(b, c, fee, entries, ids);
      var b2 := RefundAll(b, c, fee, entries, ids).value;
      RefundAllWallets(b1, c, fee, entries, ids[1..]);
      if KeyUsed(b.journal, RefundKey(ids[0])) {
        WalletsAfterReplay(b, b2, entries, c, fee, ids);
      } else {
        WalletsAfterOne(b, b1, b2, entries, c, fee, ids);
      }
    }
  }

  lemma NobodyRefunded(b: Books, entries: map<Uuid, Entry>, c: Uuid, fee: Fee)
    ensures WalletsRefunded(b, b, entries, c, fee, [])
  {
    forall u ensures DueTo(b, entries, [], u) == {} {}
  }

  /** The escrow's side of the refund loop. */
  lemma {:induction false} RefundAllEscrow(b: Books, c: Uuid, fee: Fee, entries: map<Uuid, Entry>, ids: seq<Uuid>)
    requires Valid(b) && ContestEscrow(c) in b.balances && HaveWallets(b, entries, ids)
    ensures var r := RefundAll(b, c, fee, entries, ids);
            && (r.Some? <==> fee * |Unrefunded(b, ids)| <= b.balances[ContestEscrow(c)])
            && (r.Some? ==> Valid(r.value) && Refunds(b, r.value, c, fee, ids))
    decreases |ids|
  {
    if ids == [] {
      assert Unrefunded(b, ids) == {};
      assert b.balances[ContestEscrow(c)] >= 0;
    } else {
      var id, u, rest := ids[0], entries[ids[0]].user, ids[1..];
      RefundOne(b, c, fee, u, id);
      var (b1, r) := Post(b, RefundKey(id), Transfer(ContestEscrow(c), UserAvailable(u), fee));
      var k := |Unrefunded(b, ids)|;
      FeeTimes(fee, k);
      if KeyUsed(b.journal, RefundKey(id)) {
        RefundAllEscrow(b, c, fee, entries, rest);
        var tail := RefundAll(b, c, fee, entries, rest);
        RefundsAfterReplay(b, if tail.Some? then tail.value else b, c, fee, ids);
      } else if r.Rejected? {
        assert id in Unrefunded(b, ids);
        assert k > 0;
      } else {
        UnrefundedHead(b, b1, ids);
        RefundAllEscrow(b1, c, fee, entries, rest);
        var tail := RefundAll(b1, c, fee, entries, rest);
        if tail.Some? { RefundsAfterOne(b, b1, tail.value, c, fee, u, ids); }
      }
    }
  }

  /** The refund loop goes through exactly when the escrow covers every refund not yet paid; it then takes one
      fee per such entry, pays it to the entry's user and leaves every other account alone. */
  lemma RefundAllOutcome(b: Books, c: Uuid, fee: Fee, entries: map<Uuid, Entry>, ids: seq<Uuid>)
    requires Valid(b) && ContestEscrow(c) in b.balances && HaveWallets(b, entries, ids)
    ensures var r := RefundAll(b, c, fee, entries, ids);
            && (r.Some? <==> fee * |Unrefunded(b, ids)| <= b.balances[ContestEscrow(c)])
            && (r.Some? ==> Valid(r.value) && Refunds(b, r.value, c, fee, ids))
            && (r.Some? ==> WalletsRefunded(b, r.value, entries, c, fee, ids))
  {
    RefundAllEscrow(b, c, fee, entries, ids);
    if RefundAll(b, c, fee, entries, ids).Some? { RefundAllWallets(b, c, fee, entries, ids); }
  }

  // ---------------------------------------------------------------- settlement

  lemma {:induction false} WinnerLinesFacts(prizes: seq<int>, users: seq<Uuid>)
    requires |prizes| <= |users|
    requires forall i :: 0 <= i < |prizes| ==> prizes[i] >= 0
    ensures Sum(WinnerLines(prizes, users)) == SumSeq(prizes)
    ensures forall l :: l in WinnerLines(prizes, users) ==>
            l.amount > 0 && exists i :: 0 <= i < |prizes| && l.account == UserAvailable(users[i])
  {
    if prizes != [] {
      var rest := WinnerLines(prizes[1..], users[1..]);
      WinnerLinesFacts(prizes[1..], users[1..]);
      forall l | l in WinnerLines(prizes, users)
        ensures l.amount > 0 && exists i :: 0 <= i < |prizes| && l.account == UserAvailable(users[i])
      {
        if l in rest {
          var i :| 0 <= i < |prizes[1..]| && l.account == UserAvailable(users[1..][i]);
          assert users[1..][i] == users[i + 1];
        }
      }
      if prizes[0] > 0 {
        assert WinnerLines(prizes, users)[1..] == rest;
      } else {
        assert WinnerLines(prizes, users) == rest;
      }
    }
  }

  lemma {:induction false} CreditsNeverOverdraw(b: map<AccountId, int>, lines: seq<Line>)
    requires AccountsExist(b, lines)
    requires forall a :: a in b && NonNegative(a) ==> b[a] >= 0
    requires forall l :: l in lines ==> l.amount > 0 || !NonNegative(l.account)
    ensures ApplyLines(b, lines).Ok?
  {
    if lines != [] {
      assert lines[0] in lines;
      var a := lines[0].account;
      CreditsNeverOverdraw(b[a := b[a] + lines[0].amount], lines[1..]);
    }
  }

  /** Lines that only credit users. */
  ghost predicate PaysUsers(winners: seq<Line>) {
    forall l :: l in winners ==> l.amount > 0 && l.account.UserAvailable?
  }

  lemma SettlementSum(c: Uuid, gross: int, commission: int, winners: seq<Line>)
    ensures Sum(SettlementLines(c, gross, commission, winners)) == commission - gross + Sum(winners)
  {
  }

  lemma SettlementTotal(c: Uuid, gross: int, commission: int, winners: seq<Line>, a: AccountId)
    ensures LinesTotal(SettlementLines(c, gross, commission, winners), a)
         == LinesTotal(winners, a)
            + (if a == ContestEscrow(c) then -gross else if a == PlatformRevenue then commission else 0)
  {
  }

  /** The settlement journal balances by construction; it is refused exactly when the commission
      is zero, for a line may not be. */
  lemma SettlementLinesValid(c: Uuid, gross: int, winners: seq<Line>)
    requires gross > 0 && PaysUsers(winners)
    ensures ValidateLines(SettlementLines(c, gross, gross - Sum(winners), winners)).None? <==> gross != Sum(winners)
  {
    var commission := gross - Sum(winners);
    var lines := SettlementLines(c, gross, commission, winners);
    SettlementSum(c, gross, commission, winners);
    assert lines[1].amount == commission;
    assert forall i :: 2 <= i < |lines| ==> lines[i] == winners[i - 2] && winners[i - 2] in winners;
    assert HasZeroLine(lines) <==> commission == 0;
  }

  lemma SettlementApplies(b: Books, c: Uuid, commission: int, winners: seq<Line>)
    requires Valid(b) && ContestEscrow(c) in b.balances && PlatformRevenue in b.balances
    requires PaysUsers(winners) && AccountsExist(b.balances, winners)
    ensures var lines := SettlementLines(c, b.balances[ContestEscrow(c)], commission, winners);
            AccountsExist(b.balances, lines) && ApplyLines(b.balances, lines).Ok?
  {
    var gross := b.balances[ContestEscrow(c)];
    var lines := SettlementLines(c, gross, commission, winners);
    var tail := [Line(PlatformRevenue, commission)] + winners;
    assert lines[1..] == tail;
    assert AccountsExist(b.balances, lines) by {
      forall i | 0 <= i < |lines| ensures lines[i].account in b.balances {
        if i >= 2 { assert lines[i] == winners[i - 2]; }
      }
    }
    var b1 := b.balances[ContestEscrow(c) := gross + -gross];
    assert lines[0] == Line(ContestEscrow(c), -gross);
    forall l | l in tail ensures l.amount > 0 || !NonNegative(l.account) {
      assert l == tail[0] || l in winners;
    }
    CreditsNeverOverdraw(b1, tail);
  }

  /** The commission is the exact fraction of the gross, rounded up. */
  lemma CommissionIsCeiling(gross: int, bps: Bps)
    requires gross > 0
    ensures gross - Pool(gross, bps) == (gross * bps + 9999) / 10000
    ensures 0 <= Pool(gross, bps) <= gross
    ensures gross == Pool(gross, bps) <==> bps == 0
  {
  }

  /** Prizes are not negative and, unless no position is paid, exhaust the pool. */
  lemma PrizesFacts(gross: int, bps: Bps, template: Template, entrants: nat)
    requires gross > 0 && entrants > 0
    ensures var r := ComputePrizes(Pool(gross, bps), template, entrants);
            r.Prizes? ==>
              && |r.amounts| <= entrants
              && (forall i :: 0 <= i < |r.amounts| ==> r.amounts[i] >= 0)
              && (Extent(template) > 0 ==> SumSeq(r.amounts) == Pool(gross, bps))
              && (Extent(template) == 0 ==> r.amounts == [])
  {
    CommissionIsCeiling(gross, bps);
    if Extent(template) > 0 && Pool(gross, bps) > 0 {
      PrizesCorrect(Pool(gross, bps), template, entrants);
    }
  }

  /** The books a settlement that went through leaves behind. */
  ghost predicate PaidOut(b: Books, b': Books, c: Uuid, commission: int) {
    && ContestEscrow(c) in b.balances && PlatformRevenue in b.balances
    && b'.balances.Keys == b.balances.Keys
    && b'.balances[ContestEscrow(c)] == 0
    && b'.balances[PlatformRevenue] == b.balances[PlatformRevenue] + commission
    && (forall a :: a in b.balances && a.ContestEscrow? && a != ContestEscrow(c) ==> b'.balances[a] == b.balances[a])
    && !KeyUsed(b.journal, SettlementKey(c))
    && (forall k :: KeyUsed(b'.journal, k) <==> KeyUsed(b.journal, k) || k == SettlementKey(c))
  }

  lemma SettlementTotals(c: Uuid, gross: int, commission: int, winners: seq<Line>)
    requires PaysUsers(winners)
    ensures var lines := SettlementLines(c, gross, commission, winners);
            && LinesTotal(lines, ContestEscrow(c)) == -gross
            && LinesTotal(lines, PlatformRevenue) == commission
            && (forall a: AccountId :: a.ContestEscrow? && a != ContestEscrow(c) ==> LinesTotal(lines, a) == 0)
  {
    var lines := SettlementLines(c, gross, commission, winners);
    forall a: AccountId | !a.UserAvailable?
      ensures LinesTotal(lines, a) ==
              if a == ContestEscrow(c) then -gross else if a == PlatformRevenue then commission else 0
    {
      SettlementTotal(c, gross, commission, winners, a);
      UntouchedLines(winners, a);
    }
  }

  lemma SettlementBooks(b: Books, c: Uuid, commission: int, lines: seq<Line>)
    requires Valid(b) && ContestEscrow(c) in b.balances && PlatformRevenue in b.balances
    requires LinesTotal(lines, ContestEscrow(c)) == -b.balances[ContestEscrow(c)]
    requires LinesTotal(lines, PlatformRevenue) == commission
    requires forall a: AccountId :: a.ContestEscrow? && a != ContestEscrow(c) ==> LinesTotal(lines, a) == 0
    requires Post(b, SettlementKey(c), lines).1.Posted?
    ensures Valid(Post(b, SettlementKey(c), lines).0)
    ensures PaidOut(b, Post(b, SettlementKey(c), lines).0, c, commission)
  {
    PostKeepsValid(b, SettlementKey(c), lines);
    PostedBalances(b, SettlementKey(c), lines);
    KeysAfter(b.journal, JournalEntry(SettlementKey(c), lines));
  }

  lemma WinnersFacts(b: Books, prizes: seq<int>, users: seq<Uuid>)
    requires |prizes| <= |users|
    requires forall i :: 0 <= i < |prizes| ==> prizes[i] >= 0
    ensures PaysUsers(WinnerLines(prizes, users)) && Sum(WinnerLines(prizes, users)) == SumSeq(prizes)
    ensures (forall i :: 0 <= i < |prizes| ==> UserAvailable(users[i]) in b.balances) ==>
            AccountsExist(b.balances, WinnerLines(prizes, users))
  {
    WinnerLinesFacts(prizes, users);
    var winners := WinnerLines(prizes, users);
    assert forall i :: 0 <= i < |winners| ==> winners[i] in winners;
  }

  /** A settlement that commits was posted, not replayed: a replay would leave the money. */
  lemma PostSettlementEffect(b: Books, c: Uuid, commission: int, winners: seq<Line>)
    requires Valid(b) && ContestEscrow(c) in b.balances && PlatformRevenue in b.balances
    requires b.balances[ContestEscrow(c)] > 0 && PaysUsers(winners)
    requires PostSettlement(b, c, commission, winners).Some?
    ensures Valid(PostSettlement(b, c, commission, winners).value)
    ensures PaidOut(b, PostSettlement(b, c, commission, winners).value, c, commission)
  {
    var gross := b.balances[ContestEscrow(c)];
    SettlementTotals(c, gross, commission, winners);
    SettlementBooks(b, c, commission, SettlementLines(c, gross, commission, winners));
  }

  /** A settlement that commits empties the escrow, gives the platform what the prizes leave (the
      exact commission rounded up), moves no other escrow, and used a new key. */
  lemma PayOutEffect(b: Books, c: Uuid, contest: Contest, users: seq<Uuid>)
    requires Valid(b) && ContestEscrow(c) in b.balances && PlatformRevenue in b.balances && users != []
    requires b.balances[ContestEscrow(c)] > 0
    requires PayOut(b, c, contest, users).Some?
    ensures var gross, p := b.balances[ContestEscrow(c)], PayOut(b, c, contest, users).value;
            && Valid(p.books)
            && PaidOut(b, p.books, c, gross - SumSeq(p.prizes))
            && (Extent(contest.template) > 0 ==>
                 gross - SumSeq(p.prizes) == (gross * contest.commissionBps + 9999) / 10000)
  {
    var gross, p := b.balances[ContestEscrow(c)], PayOut(b, c, contest, users).value;
    PrizesFacts(gross, contest.commissionBps, contest.template, |users|);
    CommissionIsCeiling(gross, contest.commissionBps);
    WinnersFacts(b, p.prizes, users);
    PostSettlementEffect(b, c, gross - SumSeq(p.prizes), WinnerLines(p.prizes, users));
  }

  lemma PostsWhenValid(b: Books, key: Key, lines: seq<Line>)
    requires !KeyUsed(b.journal, key) && AccountsExist(b.balances, lines) && ApplyLines(b.balances, lines).Ok?
    ensures Post(b, key, lines).1.Posted? <==> ValidateLines(lines).None?
  {
  }

  lemma SettlementPosts(b: Books, c: Uuid, lines: seq<Line>)
    requires Valid(b) && ContestEscrow(c) in b.balances && PlatformRevenue in b.balances
    requires !KeyUsed(b.journal, SettlementKey(c)) && AccountsExist(b.balances, lines) &&
             ApplyLines(b.balances, lines).Ok?
    requires LinesTotal(lines, ContestEscrow(c)) == -b.balances[ContestEscrow(c)]
    ensures var (b', r) := Post(b, SettlementKey(c), lines);
            && (r.Rejected? <==> ValidateLines(lines).Some?)
            && (!r.Rejected? ==> EscrowIn(b', c) == Some(0))
  {
    PostsWhenValid(b, SettlementKey(c), lines);
    ApplyLinesEffect(b.balances, lines);
  }

  lemma PostSettlementIff(b: Books, c: Uuid, winners: seq<Line>)
    requires Valid(b) && ContestEscrow(c) in b.balances && PlatformRevenue in b.balances
    requires b.balances[ContestEscrow(c)] > 0 && !KeyUsed(b.journal, SettlementKey(c))
    requires PaysUsers(winners) && AccountsExist(b.balances, winners)
    ensures var gross := b.balances[ContestEscrow(c)];
            PostSettlement(b, c, gross - Sum(winners), winners).Some? <==> gross != Sum(winners)
  {
    var gross := b.balances[ContestEscrow(c)];
    var commission := gross - Sum(winners);
    SettlementApplies(b, c, commission, winners);
    SettlementTotals(c, gross, commission, winners);
    SettlementLinesValid(c, gross, winners);
    SettlementPosts(b, c, SettlementLines(c, gross, commission, winners));
  }

  /** A position that is paid has a share that does not round to zero. */
  predicate PaysSomebody(template: Template, entrants: nat) {
    exists i :: 0 <= i < Min(entrants, Extent(template)) && PerPosition(template)[i] > 0
  }

  /** The platform keeps something, and the pool, if there is one, can be split; a template without
      positions leaves everything to the platform. */
  predicate CanPayOut(gross: int, contest: Contest, entrants: nat) {
    || Extent(contest.template) == 0
    || (contest.commissionBps > 0 &&
      (Pool(gross, contest.commissionBps) == 0 || PaysSomebody(contest.template, entrants)))
  }

  /** The split divides by zero exactly when there is a pool and nobody's share counts. */
  lemma SplitIff(gross: int, bps: Bps, template: Template, entrants: nat)
    requires gross > 0 && entrants > 0 && Extent(template) > 0
    ensures ComputePrizes(Pool(gross, bps), template, entrants).Prizes? <==>
            Pool(gross, bps) == 0 || PaysSomebody(template, entrants)
  {
    var paid := Min(entrants, Extent(template));
    CommissionIsCeiling(gross, bps);
    SharesNonNegative(template, paid);
    assert forall i :: 0 <= i < paid ==> PerPosition(template)[..paid][i] == PerPosition(template)[i];
  }

  lemma UsedKeyPaysNothing(b: Books, c: Uuid, commission: int, winners: seq<Line>)
    requires ContestEscrow(c) in b.balances && b.balances[ContestEscrow(c)] != 0 && KeyUsed(b.journal, SettlementKey(c))
    ensures PostSettlement(b, c, commission, winners).None?
  {
  }

  /** Exactly when a settlement of a positive escrow goes through, given wallets for the winners. */
  lemma PayOutSucceeds(b: Books, c: Uuid, contest: Contest, users: seq<Uuid>)
    requires Valid(b) && ContestEscrow(c) in b.balances && PlatformRevenue in b.balances && users != []
    requires b.balances[ContestEscrow(c)] > 0
    requires forall i :: 0 <= i < |users| ==> UserAvailable(users[i]) in b.balances
    ensures PayOut(b, c, contest, users).Some? <==>
            !KeyUsed(b.journal, SettlementKey(c)) && CanPayOut(b.balances[ContestEscrow(c)], contest, |users|)
  {
    var gross := b.balances[ContestEscrow(c)];
    var r := ComputePrizes(Pool(gross, contest.commissionBps), contest.template, |users|);
    if Extent(contest.template) > 0 { SplitIff(gross, contest.commissionBps, contest.template, |users|); }
    if r.Prizes? {
      PrizesFacts(gross, contest.commissionBps, contest.template, |users|);
      CommissionIsCeiling(gross, contest.commissionBps);
      WinnersFacts(b, r.amounts, users);
      SettlesIff(b, c, gross - SumSeq(r.amounts), WinnerLines(r.amounts, users));
    }
  }

  lemma SettlesIff(b: Books, c: Uuid, commission: int, winners: seq<Line>)
    requires Valid(b) && ContestEscrow(c) in b.balances && PlatformRevenue in b.balances &&
             b.balances[ContestEscrow(c)] > 0
    requires PaysUsers(winners) && AccountsExist(b.balances, winners) &&
             commission == b.balances[ContestEscrow(c)] - Sum(winners)
    ensures PostSettlement(b, c, commission, winners).Some? <==>
            !KeyUsed(b.journal, SettlementKey(c)) && commission != 0
  {
    if KeyUsed(b.journal, SettlementKey(c)) {
      UsedKeyPaysNothing(b, c, commission, winners);
    } else {
      PostSettlementIff(b, c, winners);
    }
  }

  /** Each winner's own line carries exactly the prize of their place. */
  lemma {:induction false} WinnerTotal(prizes: seq<int>, users: seq<Uuid>, i: nat)
    requires |prizes| <= |users| && i < |prizes| && Distinct(users)
    requires forall j :: 0 <= j < |prizes| ==> prizes[j] >= 0
    ensures LinesTotal(WinnerLines(prizes, users), UserAvailable(users[i])) == prizes[i]
  {
    var head := if prizes[0] > 0 then [Line(UserAvailable(users[0]), prizes[0])] else [];
    var rest := WinnerLines(prizes[1..], users[1..]);
    LinesTotalConcat(head, rest, UserAvailable(users[i]));
    if i == 0 {
      WinnerLinesFacts(prizes[1..], users[1..]);
      UntouchedLines(rest, UserAvailable(users[0]));
    } else {
      WinnerTotal(prizes[1..], users[1..], i - 1);
    }
  }

  /** A settlement that commits credits every wallet with the winner lines that name it. */
  lemma WalletsCredited(b: Books, c: Uuid, commission: int, winners: seq<Line>, u: Uuid)
    requires Valid(b) && ContestEscrow(c) in b.balances && b.balances[ContestEscrow(c)] > 0
    requires PostSettlement(b, c, commission, winners).Some? && UserAvailable(u) in b.balances
    ensures var b' := PostSettlement(b, c, commission, winners).value;
            UserAvailable(u) in b'.balances &&
              b'.balances[UserAvailable(u)] == b.balances[UserAvailable(u)] + LinesTotal(winners, UserAvailable(u))
  {
    var lines := SettlementLines(c, b.balances[ContestEscrow(c)], commission, winners);
    PostedBalances(b, SettlementKey(c), lines);
    SettlementTotal(c, b.balances[ContestEscrow(c)], commission, winners, UserAvailable(u));
  }
}
