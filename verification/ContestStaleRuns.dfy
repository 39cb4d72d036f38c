/**
 Concrete runs in which a guard read before its transaction is stale at the commit, and what goes
 wrong with the money.
 */
module ContestStaleRuns {
  import opened Ledger
  import opened Ranking
  import opened ContestMoney

  const FEE: Fee := 5
  const WINNER_ROW := PayoutRow(1, 1, 10000)

  lemma WinnerTakesAllIsValid()
    ensures ValidTemplate([WINNER_ROW])
    ensures Extent([WINNER_ROW]) == 1 && ShareAt([WINNER_ROW], 1) == Some(10000)
  {
  }

  function WinnerTakesAll(): Template {
    WinnerTakesAllIsValid();
    [WINNER_ROW]
  }

  function TheContest(status: Status): map<Uuid, Contest> {
    map[1 := Contest(status, FEE, 1500, WinnerTakesAll())]
  }

  function DepositLines(u: Uuid): seq<Line> { Transfer(GatewayClearing, UserAvailable(u), 5) }

  function EntryLines(u: Uuid): seq<Line> { Transfer(UserAvailable(u), ContestEscrow(1), 5) }

  const REFUND_LINES := Transfer(ContestEscrow(1), UserAvailable(7), 5)
  const WINNER_LINE := [Line(UserAvailable(7), 4)]
  const SETTLEMENT_LINES := SettlementLines(1, 5, 1, WINNER_LINE)

  /** Balances of the clearing account, the two users, the platform and, once it exists, the escrow. */
  function Balances(clearing: int, user7: int, user8: int, platform: int): map<AccountId, int> {
    map[GatewayClearing := clearing, UserAvailable(7) := user7, UserAvailable(8) := user8, PlatformRevenue := platform]
  }

  function WithEscrow(b: map<AccountId, int>, escrow: int): map<AccountId, int> { b[ContestEscrow(1) := escrow] }

  const OPENED := Books(Balances(0, 0, 0, 0), [])
  const J1 := [JournalEntry(DepositKey(0), DepositLines(7))]
  const J2 := J1 + [JournalEntry(DepositKey(1), DepositLines(8))]
  const FUNDED := Books(Balances(-10, 5, 5, 0), J2)
  const ESCROWED := Books(WithEscrow(Balances(-10, 5, 5, 0), 0), J2)
  const J3 := J2 + [JournalEntry(EntryKey(3), EntryLines(7))]
  const ENTERED := Books(WithEscrow(Balances(-10, 0, 5, 0), 5), J3)
  const J4 := J3 + [JournalEntry(SettlementKey(1), SETTLEMENT_LINES)]
  const SETTLED_BOOKS := Books(WithEscrow(Balances(-10, 4, 5, 1), 0), J4)
  const J5 := J4 + [JournalEntry(EntryKey(4), EntryLines(8))]
  const LATE_BOOKS := Books(WithEscrow(Balances(-10, 4, 0, 1), 5), J5)
  const J6 := J5 + [JournalEntry(RefundKey(9), REFUND_LINES)]
  const TWICE_BOOKS := Books(WithEscrow(Balances(-10, 9, 0, 1), 0), J6)

  const FIRST := Entry(1, 7, ACTIVE, true, 0, None)
  const WINNER := Entry(1, 7, SETTLED, true, 4, Some(1))
  const SECOND := Entry(1, 8, ACTIVE, true, 0, None)

  const ENTER := SubmitStep(1, 7, 3, 9)
  const ENTER_LATE := SubmitStep(1, 8, 4, 10)

  function Accounts(): seq<Step> {
    [CreateContest(1, FEE, 1500, WinnerTakesAll()), OpenAccountStep(GatewayClearing), OpenAccountStep(UserAvailable(7)),
     OpenAccountStep(UserAvailable(8)), OpenAccountStep(PlatformRevenue)]
  }

  /** A draft contest 1 with fee 5, and two users with exactly one fee each. */
  function Prelude(): seq<Step> {
    Accounts() + [Elsewhere(DepositKey(0), DepositLines(7)), Elsewhere(DepositKey(1), DepositLines(8))]
  }

  // ---------------------------------------------------------------- single steps

  lemma {:induction false} RunSplit(w: World, xs: seq<Step>, ys: seq<Step>)
    ensures ContestMoney.Run(w, xs + ys) == ContestMoney.Run(ContestMoney.Run(w, xs), ys)
    ensures Fresh(w, xs + ys) <==> Fresh(w, xs) && Fresh(ContestMoney.Run(w, xs), ys)
    decreases |xs|
  {
    if xs == [] {
      assert xs + ys == ys;
    } else {
      assert (xs + ys)[1..] == xs[1..] + ys;
      RunSplit(Next(w, xs[0]), xs[1..], ys);
    }
  }

  lemma RunOne(w: World, xs: seq<Step>, s: Step)
    ensures ContestMoney.Run(w, xs + [s]) == Next(ContestMoney.Run(w, xs), s)
    ensures Fresh(w, xs + [s]) <==> Fresh(w, xs) && FreshStep(ContestMoney.Run(w, xs), s)
  {
    RunSplit(w, xs, [s]);
    assert [s][1..] == [];
  }

  lemma Opens()
    ensures ContestMoney.Run(START, Accounts()) == World(OPENED, TheContest(Draft), map[], map[])
    ensures Fresh(START, Accounts())
  {
    var w1 := Next(START, Accounts()[0]);
    var w2 := Next(w1, Accounts()[1]);
    var w3 := Next(w2, Accounts()[2]);
    var w4 := Next(w3, Accounts()[3]);
    assert Accounts()[1..][1..][1..][1..][1..] == [];
    assert Next(w4, Accounts()[4]).books.balances == Balances(0, 0, 0, 0);
  }

  lemma Posts(b: Books, b': Books, key: Key, from: AccountId, to: AccountId)
    requires from in b.balances && to in b.balances && from != to
    requires NonNegative(from) ==> b.balances[from] >= 5
    requires NonNegative(to) ==> b.balances[to] >= 0
    requires !KeyUsed(b.journal, key)
    requires b'.balances == b.balances[from := b.balances[from] - 5][to := b.balances[to] + 5]
    requires b'.journal == b.journal + [JournalEntry(key, Transfer(from, to, 5))]
    ensures Post(b, key, Transfer(from, to, 5)) == (b', Posted(|b.journal|))
  {
    TransferOutcome(b, key, from, to, 5);
  }

  lemma DepositsOne(w: World)
    requires w.books == OPENED
    ensures Next(w, Elsewhere(DepositKey(0), DepositLines(7))) == w.(books := Books(Balances(-5, 5, 0, 0), J1))
  {
    assert [] + [JournalEntry(DepositKey(0), DepositLines(7))] == J1;
    Posts(OPENED, Books(Balances(-5, 5, 0, 0), J1), DepositKey(0), GatewayClearing, UserAvailable(7));
  }

  lemma DepositsTwo(w: World)
    requires w.books == Books(Balances(-5, 5, 0, 0), J1)
    ensures Next(w, Elsewhere(DepositKey(1), DepositLines(8))) == w.(books := FUNDED)
  {
    Posts(w.books, FUNDED, DepositKey(1), GatewayClearing, UserAvailable(8));
  }

  lemma Funds()
    ensures ContestMoney.Run(START, Prelude()) == World(FUNDED, TheContest(Draft), map[], map[])
    ensures Fresh(START, Prelude())
  {
    Opens();
    var d1, d2 := Elsewhere(DepositKey(0), DepositLines(7)), Elsewhere(DepositKey(1), DepositLines(8));
    DepositsOne(World(OPENED, TheContest(Draft), map[], map[]));
    DepositsTwo(World(Books(Balances(-5, 5, 0, 0), J1), TheContest(Draft), map[], map[]));
    RunOne(START, Accounts(), d1);
    RunOne(START, Accounts() + [d1], d2);
    assert Prelude() == Accounts() + [d1] + [d2];
  }

  lemma Publishes(w: World)
    requires w.books == FUNDED && w.contests == TheContest(Draft)
    ensures Next(w, PublishStep(1)) == w.(books := ESCROWED, contests := TheContest(Published))
  {
  }

  lemma Enters(w: World, status: Status)
    requires w.books == ESCROWED && w.contests == TheContest(status) && w.entries == map[]
    ensures Next(w, ENTER) == w.(books := ENTERED, entries := map[9 := FIRST])
  {
    Posts(ESCROWED, ENTERED, EntryKey(3), UserAvailable(7), ContestEscrow(1));
  }

  lemma CancelsNothing(w: World, status: Status, seen: bool)
    requires w.contests == TheContest(status) && w.pending == map[0 := CancelSnapshot(1, seen, [])]
    requires seen ==> EscrowIn(w.books, 1) == Some(0)
    ensures Next(w, CommitCancel(0)) == w.(contests := TheContest(Cancelled), pending := map[])
  {
    assert MarkRefunded(w.entries, []) == w.entries;
    assert map[0 := CancelSnapshot(1, seen, [])] - {0} == map[];
  }

  lemma ReadsNothing(w: World, status: Status)
    requires w.contests == TheContest(status) && status in {Draft, Published} && w.entries == map[] &&
             w.pending == map[]
    ensures Next(w, ReadCancel(0, 1, [])) == w.(pending := map[0 := CancelSnapshot(1, Exists(w, ContestEscrow(1)), [])])
  {
  }

  // ---------------------------------------------------------------- a late submission

  function LateSubmission(): seq<Step> {
    Prelude() + [PublishStep(1)] + [ReadCancel(0, 1, [])] + [CommitCancel(0)] + [ENTER]
  }

  /** A submission whose guard was read before a cancellation commits after it: the contest is
      cancelled, yet its escrow holds the fee and its entry is active. */
  lemma LateSubmissionStrandsMoney()
    ensures var w := ContestMoney.Run(START, LateSubmission());
            && w.contests == TheContest(Cancelled)
            && EscrowIn(w.books, 1) == Some(5) && w.entries == map[9 := FIRST]
  {
    Funds();
    var p := Prelude();
    var w0 := World(FUNDED, TheContest(Draft), map[], map[]);
    RunOne(START, p, PublishStep(1));
    Publishes(w0);
    var w1 := w0.(books := ESCROWED, contests := TheContest(Published));
    RunOne(START, p + [PublishStep(1)], ReadCancel(0, 1, []));
    var w2 := w1.(pending := map[0 := CancelSnapshot(1, true, [])]);
    ReadsNothing(w1, Published);
    RunOne(START, p + [PublishStep(1)] + [ReadCancel(0, 1, [])], CommitCancel(0));
    CancelsNothing(w2, Published, true);
    var w3 := w2.(contests := TheContest(Cancelled), pending := map[]);
    RunOne(START, p + [PublishStep(1)] + [ReadCancel(0, 1, [])] + [CommitCancel(0)], ENTER);
    Enters(w3, Cancelled);
  }

  // ---------------------------------------------------------------- a blind cancellation

  function BlindCancellation(): seq<Step> {
    Prelude() + [ReadCancel(0, 1, [])] + [PublishStep(1)] + [ENTER] + [CommitCancel(0)]
  }

  /** A cancellation read in draft skips the escrow check, so it commits over a publication and an
      entry that came in between: the contest is cancelled with the fee still in escrow, although
      every submission was fresh. */
  lemma BlindCancellationStrandsMoney()
    ensures Fresh(START, BlindCancellation())
    ensures var w := ContestMoney.Run(START, BlindCancellation());
            && w.contests == TheContest(Cancelled)
            && EscrowIn(w.books, 1) == Some(5) && w.entries == map[9 := FIRST]
  {
    Funds();
    var p := Prelude();
    var w0 := World(FUNDED, TheContest(Draft), map[], map[]);
    RunOne(START, p, ReadCancel(0, 1, []));
    var w1 := w0.(pending := map[0 := CancelSnapshot(1, false, [])]);
    ReadsNothing(w0, Draft);
    RunOne(START, p + [ReadCancel(0, 1, [])], PublishStep(1));
    Publishes(w1);
    var w2 := w1.(books := ESCROWED, contests := TheContest(Published));
    RunOne(START, p + [ReadCancel(0, 1, [])] + [PublishStep(1)], ENTER);
    Enters(w2, Published);
    var w3 := w2.(books := ENTERED, entries := map[9 := FIRST]);
    RunOne(START, p + [ReadCancel(0, 1, [])] + [PublishStep(1)] + [ENTER], CommitCancel(0));
    CancelsNothing(w3, Published, false);
  }

  // ---------------------------------------------------------------- a double payment

  const OPS := map[0 := CancelSnapshot(1, true, [9]), 1 := SettleSnapshot(1, [9])]

  lemma ReadsOne(w: World, s: Step)
    requires w.entries == map[9 := FIRST] && w.books == ENTERED
    requires (s == ReadCancel(0, 1, [9]) && w.contests == TheContest(Published) && w.pending == map[])
          || (s == ReadSettle(1, 1, [9]) && w.contests == TheContest(Scored) &&
            w.pending == map[0 := CancelSnapshot(1, true, [9])])
    ensures Next(w, s) == w.(pending := if s.ReadCancel? then map[0 := CancelSnapshot(1, true, [9])] else OPS)
  {
  }

  lemma Advances(w: World)
    requires w.contests == TheContest(Published)
    ensures Next(Next(Next(w, LockStep(1)), ScoringStep(1)), ScoredStep(1)) == w.(contests := TheContest(Scored))
  {
  }

  lemma OnePrize()
    ensures Pool(5, 1500) == 4
    ensures ComputePrizes(4, WinnerTakesAll(), 1) == Prizes([4])
    ensures WinnerLines([4], [7]) == WINNER_LINE
  {
  }

  lemma SettlesBooks()
    ensures PostSettlement(ENTERED, 1, 1, WINNER_LINE) == Some(SETTLED_BOOKS)
  {
    var l0, l1, l2 := Line(ContestEscrow(1), -5), Line(PlatformRevenue, 1), Line(UserAvailable(7), 4);
    assert SETTLEMENT_LINES == [l0, l1, l2];
    assert [l0, l1, l2][1..] == [l1, l2] && [l1, l2][1..] == [l2] && [l2][1..] == [];
    assert Sum([l2]) == 4 && Sum([l1, l2]) == 5 && Sum([l0, l1, l2]) == 0;
    assert ValidateLines([l0, l1, l2]).None?;
    var b0 := ENTERED.balances;
    var b1 := b0[ContestEscrow(1) := 0];
    var b2 := b1[PlatformRevenue := 1];
    assert ApplyLines(b2, [l2]) == Ok(b2[UserAvailable(7) := 4]) by {
      assert ApplyLines(b2[UserAvailable(7) := 4], [l2][1..]) == Ok(b2[UserAvailable(7) := 4]);
    }
    assert ApplyLines(b1, [l1, l2]) == ApplyLines(b2, [l1, l2][1..]);
    assert ApplyLines(b0, [l0, l1, l2]) == ApplyLines(b1, [l0, l1, l2][1..]);
    assert b2[UserAvailable(7) := 4] == SETTLED_BOOKS.balances;
  }

  lemma PaysOut()
    ensures PayOut(ENTERED, 1, TheContest(Scored)[1], [7]) == Some(Payout(SETTLED_BOOKS, [4]))
  {
    OnePrize();
    SettlesBooks();
    assert SumSeq([4]) == 4 by { assert [4][1..] == []; }
  }

  lemma RanksOne()
    ensures var es := map[9 := FIRST];
            WriteRanks(WritePrizes(es, [9], [4]), [9]) == map[9 := WINNER] && Users(es, [9]) == [7]
  {
  }

  lemma Settles(w: World)
    requires w == World(ENTERED, TheContest(Scored), map[9 := FIRST], OPS)
    ensures Next(w, CommitSettle(1)) ==
            World(SETTLED_BOOKS, TheContest(Settled), map[9 := WINNER], map[0 := CancelSnapshot(1, true, [9])])
  {
    PaysOut();
    RanksOne();
    assert w.contests[1 := w.contests[1].(status := Settled)] == TheContest(Settled);
    assert w.books.balances[ContestEscrow(1)] == 5;
    assert Settle(w, OPS[1]) ==
      Some(w.(books := SETTLED_BOOKS, contests := TheContest(Settled), entries := map[9 := WINNER]));
    assert OPS - {1} == map[0 := CancelSnapshot(1, true, [9])];
  }

  lemma EntersLate(w: World)
    requires w.books == SETTLED_BOOKS && w.contests == TheContest(Settled) && w.entries == map[9 := WINNER]
    ensures Next(w, ENTER_LATE) == w.(books := LATE_BOOKS, entries := map[9 := WINNER, 10 := SECOND])
  {
    Posts(SETTLED_BOOKS, LATE_BOOKS, EntryKey(4), UserAvailable(8), ContestEscrow(1));
    assert w.entries[10 := SECOND] == map[9 := WINNER, 10 := SECOND];
  }

  /** The refund loop over entry 9 alone. */
  lemma RefundsNine(b: Books, b': Books, entries: map<Uuid, Entry>)
    requires ContestEscrow(1) in b.balances && UserAvailable(7) in b.balances && b.balances[ContestEscrow(1)] >= 5 &&
             b.balances[UserAvailable(7)] >= 0
    requires !KeyUsed(b.journal, RefundKey(9)) && 9 in entries && entries[9].user == 7
    requires b'.balances ==
             b.balances[ContestEscrow(1) := b.balances[ContestEscrow(1)] - 5]
                       [UserAvailable(7) := b.balances[UserAvailable(7)] + 5]
    requires b'.journal == b.journal + [JournalEntry(RefundKey(9), REFUND_LINES)]
    ensures RefundAll(b, 1, FEE, entries, [9]) == Some(b')
  {
    Posts(b, b', RefundKey(9), ContestEscrow(1), UserAvailable(7));
    assert [9][1..] == [];
    assert RefundAll(b, 1, FEE, entries, [9]) == RefundAll(b', 1, FEE, entries, [9][1..]);
  }

  lemma RefundsWinner(w: World)
    requires w == World(LATE_BOOKS, TheContest(Settled), map[9 := WINNER, 10 := SECOND],
             map[0 := CancelSnapshot(1, true, [9])])
    ensures Next(w, CommitCancel(0)).entries == map[9 := WINNER.(status := REFUNDED), 10 := SECOND]
    ensures KeyUsed(Next(w, CommitCancel(0)).books.journal, RefundKey(9))
  {
    KeyUsedAppend(J5, JournalEntry(RefundKey(9), REFUND_LINES), RefundKey(9));
    RefundsNine(LATE_BOOKS, TWICE_BOOKS, w.entries);
  }

  /** One entry; a cancellation is read while the contest is published; then the contest is scored. */
  function Overtaken(): seq<Step> {
    Prelude() + [PublishStep(1)] + [ENTER] + [ReadCancel(0, 1, [9])] + [LockStep(1)] + [ScoringStep(1)] +
      [ScoredStep(1)]
  }

  const SCORED := World(ENTERED, TheContest(Scored), map[9 := FIRST], map[0 := CancelSnapshot(1, true, [9])])

  lemma ScoredMeanwhile()
    ensures ContestMoney.Run(START, Overtaken()) == SCORED && Fresh(START, Overtaken())
  {
    Funds();
    var p := Prelude();
    var w0 := World(FUNDED, TheContest(Draft), map[], map[]);
    RunOne(START, p, PublishStep(1));
    Publishes(w0);
    RunOne(START, p + [PublishStep(1)], ENTER);
    Enters(World(ESCROWED, TheContest(Published), map[], map[]), Published);
    var q := p + [PublishStep(1)] + [ENTER];
    var w2 := World(ENTERED, TheContest(Published), map[9 := FIRST], map[]);
    RunOne(START, q, ReadCancel(0, 1, [9]));
    ReadsOne(w2, ReadCancel(0, 1, [9]));
    var w3 := w2.(pending := map[0 := CancelSnapshot(1, true, [9])]);
    RunOne(START, q + [ReadCancel(0, 1, [9])], LockStep(1));
    RunOne(START, q + [ReadCancel(0, 1, [9])] + [LockStep(1)], ScoringStep(1));
    RunOne(START, q + [ReadCancel(0, 1, [9])] + [LockStep(1)] + [ScoringStep(1)], ScoredStep(1));
    Advances(w3);
  }

  const RETURNED := Books(WithEscrow(Balances(-10, 5, 5, 0), 0), J3 + [JournalEntry(RefundKey(9), REFUND_LINES)])

  lemma CancelsScored()
    ensures Next(SCORED, CommitCancel(0)) ==
            World(RETURNED, TheContest(Cancelled), map[9 := FIRST.(status := REFUNDED)], map[])
  {
    RefundsNine(ENTERED, RETURNED, SCORED.entries);
    assert MarkRefunded(SCORED.entries, [9]) == map[9 := FIRST.(status := REFUNDED)];
    assert SCORED.contests[1 := SCORED.contests[1].(status := Cancelled)] == TheContest(Cancelled);
    assert SCORED.pending - {0} == map[];
  }

  /** A cancellation read while its contest was published commits after the contest was scored: a
      contest whose scoring has begun is cancelled and refunded. */
  lemma CancellationAfterScoring()
    ensures Fresh(START, Overtaken() + [CommitCancel(0)])
    ensures ContestMoney.Run(START, Overtaken()).contests == TheContest(Scored)
    ensures ContestMoney.Run(START, Overtaken() + [CommitCancel(0)])
         == World(RETURNED, TheContest(Cancelled), map[9 := FIRST.(status := REFUNDED)], map[])
  {
    ScoredMeanwhile();
    RunOne(START, Overtaken(), CommitCancel(0));
    CancelsScored();
  }

  function Opening(): seq<Step> { Overtaken() + [ReadSettle(1, 1, [9])] }

  lemma Opened()
    ensures ContestMoney.Run(START, Opening()) == World(ENTERED, TheContest(Scored), map[9 := FIRST], OPS)
  {
    ScoredMeanwhile();
    RunOne(START, Overtaken(), ReadSettle(1, 1, [9]));
    ReadsOne(SCORED, ReadSettle(1, 1, [9]));
  }

  function DoublePayment(): seq<Step> {
    Opening() + [CommitSettle(1)] + [ENTER_LATE] + [CommitCancel(0)]
  }

  lemma SettledThenEntered()
    ensures ContestMoney.Run(START, Opening() + [CommitSettle(1)] + [ENTER_LATE])
         == World(LATE_BOOKS, TheContest(Settled), map[9 := WINNER, 10 := SECOND],
           map[0 := CancelSnapshot(1, true, [9])])
  {
    Opened();
    RunOne(START, Opening(), CommitSettle(1));
    Settles(World(ENTERED, TheContest(Scored), map[9 := FIRST], OPS));
    RunOne(START, Opening() + [CommitSettle(1)], ENTER_LATE);
    EntersLate(World(SETTLED_BOOKS, TheContest(Settled), map[9 := WINNER], map[0 := CancelSnapshot(1, true, [9])]));
  }

  /** With a submission that commits after settlement, a cancellation read before it can refund an
      entry that has already been paid a prize, out of the late entry's fee. */
  lemma LateSubmissionAllowsDoublePayment()
    ensures var w := ContestMoney.Run(START, DoublePayment());
            9 in w.entries && w.entries[9].prize == 4 && KeyUsed(w.books.journal, RefundKey(9))
  {
    SettledThenEntered();
    RunOne(START, Opening() + [CommitSettle(1)] + [ENTER_LATE], CommitCancel(0));
    RefundsWinner(World(LATE_BOOKS, TheContest(Settled), map[9 := WINNER, 10 := SECOND],
      map[0 := CancelSnapshot(1, true, [9])]));
  }

  // ---------------------------------------------------------------- a settlement without entrants

  function NobodyEnters(): seq<Step> {
    Prelude() + [PublishStep(1)] + [LockStep(1)] + [ScoringStep(1)] + [ScoredStep(1)]
  }

  const SCORED_EMPTY := World(ESCROWED, TheContest(Scored), map[], map[])

  lemma ScoredWithoutEntries()
    ensures ContestMoney.Run(START, NobodyEnters()) == SCORED_EMPTY
  {
    Funds();
    var p := Prelude() + [PublishStep(1)];
    RunOne(START, Prelude(), PublishStep(1));
    Publishes(World(FUNDED, TheContest(Draft), map[], map[]));
    RunOne(START, p, LockStep(1));
    RunOne(START, p + [LockStep(1)], ScoringStep(1));
    RunOne(START, p + [LockStep(1)] + [ScoringStep(1)], ScoredStep(1));
    Advances(World(ESCROWED, TheContest(Published), map[], map[]));
  }

  lemma ReadsEmptyRanking()
    ensures Next(SCORED_EMPTY, ReadSettle(0, 1, [])) == SCORED_EMPTY.(pending := map[0 := SettleSnapshot(1, [])])
  {
  }

  /** A settlement is read over the contest without entries; then a late entry commits. */
  function EmptySettlement(): seq<Step> { NobodyEnters() + [ReadSettle(0, 1, [])] + [ENTER] + [CommitSettle(0)] }

  lemma SettlesNothing(w: World)
    requires w.contests == TheContest(Scored) && w.books == ENTERED && w.pending == map[0 := SettleSnapshot(1, [])]
    ensures Next(w, CommitSettle(0)) == w.(contests := TheContest(Settled), pending := map[])
  {
    assert WriteRanks(w.entries, []) == w.entries;
    assert w.contests[1 := w.contests[1].(status := Settled)] == TheContest(Settled);
    assert w.pending - {0} == map[];
  }

  /** A submission that commits into a scored, still open contest is stranded by a settlement that was
      read before it: with no entrant in its snapshot the settlement pays nothing and closes. */
  lemma EmptySettlementStrandsMoney()
    ensures ContestMoney.Run(START, EmptySettlement()) == World(ENTERED, TheContest(Settled), map[9 := FIRST], map[])
  {
    ScoredWithoutEntries();
    ReadsEmptyRanking();
    var q, w := NobodyEnters(), SCORED_EMPTY.(pending := map[0 := SettleSnapshot(1, [])]);
    RunOne(START, q, ReadSettle(0, 1, []));
    RunOne(START, q + [ReadSettle(0, 1, [])], ENTER);
    Enters(w, Scored);
    RunOne(START, q + [ReadSettle(0, 1, [])] + [ENTER], CommitSettle(0));
    SettlesNothing(w.(books := ENTERED, entries := map[9 := FIRST]));
  }
}
