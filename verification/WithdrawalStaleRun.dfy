/**
 Concrete runs in which a decision commits on a status it read before the opposite decision, an approval
 after a rejection and a rejection after an approval: one hold is both returned and paid out, and the next
 payout finds the pending account empty.
 */
module WithdrawalStaleRun {
  import opened Ledger
  import opened Withdrawals

  const HOLD: Amount := 50_000

  function Balances(clearing: int, available: int, pending: int, external: int): map<AccountId, int> {
    map[GatewayClearing := clearing, External := external, UserAvailable(7) := available, UserPending(7) := pending]
  }

  const DEPOSIT := JournalEntry(DepositKey(0), Transfer(GatewayClearing, UserAvailable(7), 100_000))

  const J1 := [DEPOSIT]
  const J2 := J1 + [JournalEntry(HoldKey(0), HoldLines(7, HOLD))]
  const J3 := J2 + [JournalEntry(HoldKey(1), HoldLines(7, HOLD))]
  const J4 := J3 + [JournalEntry(ReverseKey(0), ReverseLines(7, HOLD))]
  const J5 := J4 + [JournalEntry(SettleKey(0), SettleLines(7, HOLD))]

  const NO_PENDING := map[GatewayClearing := -100_000, External := 0, UserAvailable(7) := 100_000]

  function Row(status: WithdrawalStatus, reviewedBy: Option<Uuid>): Withdrawal {
    Withdrawal(7, HOLD, status, reviewedBy)
  }

  const FUNDED := Desk(Books(NO_PENDING, J1), [])
  const ONE_HELD := Desk(Books(Balances(-100_000, 50_000, 50_000, 0), J2), [Row(REQUESTED, None)])
  const BOTH_HELD := Desk(Books(Balances(-100_000, 0, 100_000, 0), J3), [Row(REQUESTED, None), Row(REQUESTED, None)])
  const ONE_RETURNED := Desk(Books(Balances(-100_000, 50_000, 50_000, 0), J4),
    [Row(REJECTED, None), Row(REQUESTED, None)])
  const APPROVED_LATE := Desk(ONE_RETURNED.books, [Row(APPROVED, Some(1)), Row(REQUESTED, None)])
  const PAID_TOO := Desk(Books(Balances(-100_000, 50_000, 0, 50_000), J5), [Row(PAID, Some(1)), Row(REQUESTED, None)])
  const OTHER_APPROVED := Desk(PAID_TOO.books, [Row(PAID, Some(1)), Row(APPROVED, Some(1))])

  const ONE_APPROVED := Desk(BOTH_HELD.books, [Row(APPROVED, Some(1)), Row(REQUESTED, None)])
  const RETURNED_LATE := Desk(ONE_RETURNED.books, [Row(REJECTED, Some(1)), Row(REQUESTED, None)])

  /** The gateway pays every reference. */
  ghost predicate AllPaid(paid: nat -> bool) { forall w :: paid(w) }

  /** The accounts are opened and the user deposits; then the rest. */
  function Opening(rest: seq<Withdrawals.Step>): seq<Withdrawals.Step> {
    [OpenAccountStep(GatewayClearing)] + ([OpenAccountStep(External)] + ([OpenAccountStep(UserAvailable(7))] +
      ([DEPOSIT_STEP] + rest)))
  }

  /** The user holds two withdrawals; the first is rejected. */
  function Holding(): seq<Withdrawals.Step> {
    [RequestStep(7, HOLD, false)] + ([RequestStep(7, HOLD, false)] + ([RejectStep(0)] + Late()))
  }

  /** The first is approved all the same, and paid; then the second is approved. */
  function Late(): seq<Withdrawals.Step> {
    [ApproveStep(1, 0)] + ([Answer(0, APPROVED)] + ([ApproveStep(1, 1)] + []))
  }

  lemma RunOne(paid: nat -> bool, s: Desk, step: Withdrawals.Step, t: Desk, rest: seq<Withdrawals.Step>)
    requires Next(paid, s, step) == t
    ensures Withdrawals.Run(paid, s, [step] + rest) == Withdrawals.Run(paid, t, rest)
  {
  }

  lemma Keys1(k: Key)
    ensures KeyUsed(J1, k) <==> k == DepositKey(0)
  {
    assert J1[0] == DEPOSIT;
  }

  lemma Keys3(k: Key)
    ensures KeyUsed(J2, k) <==> k in {DepositKey(0), HoldKey(0)}
    ensures KeyUsed(J3, k) <==> k in {DepositKey(0), HoldKey(0), HoldKey(1)}
  {
    Keys1(k);
    KeyUsedAppend(J1, JournalEntry(HoldKey(0), HoldLines(7, HOLD)), k);
    KeyUsedAppend(J2, JournalEntry(HoldKey(1), HoldLines(7, HOLD)), k);
  }

  lemma Keys5(k: Key)
    ensures KeyUsed(J4, k) <==> k in {DepositKey(0), HoldKey(0), HoldKey(1), ReverseKey(0)}
    ensures KeyUsed(J5, k) <==> k in {DepositKey(0), HoldKey(0), HoldKey(1), ReverseKey(0), SettleKey(0)}
  {
    Keys3(k);
    KeyUsedAppend(J3, JournalEntry(ReverseKey(0), ReverseLines(7, HOLD)), k);
    KeyUsedAppend(J4, JournalEntry(SettleKey(0), SettleLines(7, HOLD)), k);
  }

  const ONE_ACCOUNT := Desk(Books(map[GatewayClearing := 0], []), [])
  const TWO_ACCOUNTS := Desk(Books(map[GatewayClearing := 0, External := 0], []), [])
  const THREE_ACCOUNTS := Desk(Books(map[GatewayClearing := 0, External := 0, UserAvailable(7) := 0], []), [])
  const DEPOSIT_STEP := Elsewhere(DepositKey(0), Transfer(GatewayClearing, UserAvailable(7), 100_000))

  lemma Deposit(paid: nat -> bool)
    ensures Next(paid, THREE_ACCOUNTS, DEPOSIT_STEP) == FUNDED
  {
    TransferOutcome(THREE_ACCOUNTS.books, DepositKey(0), GatewayClearing, UserAvailable(7), 100_000);
    assert [] + [DEPOSIT] == J1;
  }

  lemma AccountsOpen(paid: nat -> bool)
    ensures Next(paid, START, OpenAccountStep(GatewayClearing)) == ONE_ACCOUNT
    ensures Next(paid, ONE_ACCOUNT, OpenAccountStep(External)) == TWO_ACCOUNTS
    ensures Next(paid, TWO_ACCOUNTS, OpenAccountStep(UserAvailable(7))) == THREE_ACCOUNTS
  {
  }

  lemma OpeningRun(paid: nat -> bool, rest: seq<Withdrawals.Step>)
    ensures Withdrawals.Run(paid, START, Opening(rest)) == Withdrawals.Run(paid, FUNDED, rest)
  {
    var funded := [DEPOSIT_STEP] + rest;
    var user := [OpenAccountStep(UserAvailable(7))] + funded;
    AccountsOpen(paid);
    Deposit(paid);
    RunOne(paid, START, OpenAccountStep(GatewayClearing), ONE_ACCOUNT, [OpenAccountStep(External)] + user);
    RunOne(paid, ONE_ACCOUNT, OpenAccountStep(External), TWO_ACCOUNTS, user);
    RunOne(paid, TWO_ACCOUNTS, OpenAccountStep(UserAvailable(7)), THREE_ACCOUNTS, funded);
    RunOne(paid, THREE_ACCOUNTS, DEPOSIT_STEP, FUNDED, rest);
  }

  lemma FirstRequest(paid: nat -> bool)
    ensures Next(paid, FUNDED, RequestStep(7, HOLD, false)) == ONE_HELD
  {
    Keys1(HoldKey(0));
    TransferOutcome(Open(FUNDED.books, UserPending(7)), HoldKey(0), UserAvailable(7), UserPending(7), HOLD);
  }

  lemma SecondRequest(paid: nat -> bool)
    ensures Next(paid, ONE_HELD, RequestStep(7, HOLD, false)) == BOTH_HELD
  {
    Keys3(HoldKey(1));
    TransferOutcome(ONE_HELD.books, HoldKey(1), UserAvailable(7), UserPending(7), HOLD);
  }

  lemma Rejection(paid: nat -> bool)
    ensures Next(paid, BOTH_HELD, RejectStep(0)) == ONE_RETURNED
  {
    Keys3(ReverseKey(0));
    TransferOutcome(BOTH_HELD.books, ReverseKey(0), UserPending(7), UserAvailable(7), HOLD);
  }

  lemma LatePayout(paid: nat -> bool)
    requires AllPaid(paid)
    ensures Next(paid, APPROVED_LATE, Answer(0, APPROVED)) == PAID_TOO
  {
    Keys5(SettleKey(0));
    TransferOutcome(APPROVED_LATE.books, SettleKey(0), UserPending(7), External, HOLD);
  }

  lemma HoldingRun(paid: nat -> bool)
    ensures Withdrawals.Run(paid, FUNDED, Holding()) == Withdrawals.Run(paid, ONE_RETURNED, Late())
  {
    FirstRequest(paid);
    SecondRequest(paid);
    Rejection(paid);
    RunOne(paid, FUNDED, RequestStep(7, HOLD, false), ONE_HELD,
      [RequestStep(7, HOLD, false)] + ([RejectStep(0)] + Late()));
    RunOne(paid, ONE_HELD, RequestStep(7, HOLD, false), BOTH_HELD, [RejectStep(0)] + Late());
    RunOne(paid, BOTH_HELD, RejectStep(0), ONE_RETURNED, Late());
  }

  lemma LateRun(paid: nat -> bool)
    requires AllPaid(paid)
    ensures Withdrawals.Run(paid, ONE_RETURNED, Late()) == OTHER_APPROVED
  {
    LatePayout(paid);
    RunOne(paid, ONE_RETURNED, ApproveStep(1, 0), APPROVED_LATE, [Answer(0, APPROVED)] + ([ApproveStep(1, 1)] + []));
    RunOne(paid, APPROVED_LATE, Answer(0, APPROVED), PAID_TOO, [ApproveStep(1, 1)] + []);
    RunOne(paid, PAID_TOO, ApproveStep(1, 1), OTHER_APPROVED, []);
  }

  /** The first hold was returned and paid; the second, approved and paid by the gateway, cannot be
      settled: the user's pending account is empty while its hold is open. */
  predicate ReturnedAndPaid(s: Desk) {
    && KeyUsed(s.books.journal, ReverseKey(0)) && KeyUsed(s.books.journal, SettleKey(0))
    && Sent(s, 1) && !KeyUsed(s.books.journal, SettleKey(1)) && !KeyUsed(s.books.journal, ReverseKey(1))
    && Pending(s.books, 7) == 0 && SettleResult(s, 1).1.Rejected?
  }

  lemma OtherApprovedIsShort()
    ensures ReturnedAndPaid(OTHER_APPROVED)
  {
    Keys5(ReverseKey(0));
    Keys5(SettleKey(0));
    Keys5(SettleKey(1));
    Keys5(ReverseKey(1));
    TransferOutcome(OTHER_APPROVED.books, SettleKey(1), UserPending(7), External, HOLD);
  }

  lemma StaleApprovalPaysTwice(paid: nat -> bool)
    requires AllPaid(paid)
    ensures ReturnedAndPaid(Withdrawals.Run(paid, START, Opening(Holding())))
  {
    OpeningRun(paid, Holding());
    HoldingRun(paid);
    LateRun(paid);
    OtherApprovedIsShort();
  }

  /** The user holds two withdrawals; the first is approved, rejected all the same, and paid. */
  function Approving(): seq<Withdrawals.Step> {
    [RequestStep(7, HOLD, false)] + ([RequestStep(7, HOLD, false)] + ([ApproveStep(1, 0)] + ([RejectStep(0)] +
      ([Answer(0, APPROVED)] + ([ApproveStep(1, 1)] + [])))))
  }

  lemma LateRejection(paid: nat -> bool)
    ensures Next(paid, ONE_APPROVED, RejectStep(0)) == RETURNED_LATE
  {
    Keys3(ReverseKey(0));
    TransferOutcome(ONE_APPROVED.books, ReverseKey(0), UserPending(7), UserAvailable(7), HOLD);
  }

  /** The status of a rejected row does not stop the gateway's answer. */
  lemma PaidAfterRejection(paid: nat -> bool)
    requires AllPaid(paid)
    ensures Next(paid, RETURNED_LATE, Answer(0, APPROVED)) == PAID_TOO
  {
    Keys5(SettleKey(0));
    TransferOutcome(RETURNED_LATE.books, SettleKey(0), UserPending(7), External, HOLD);
  }

  lemma ApprovingRun(paid: nat -> bool)
    requires AllPaid(paid)
    ensures Withdrawals.Run(paid, FUNDED, Approving()) == OTHER_APPROVED
  {
    var last := [ApproveStep(1, 1)] + [];
    FirstRequest(paid);
    SecondRequest(paid);
    LateRejection(paid);
    PaidAfterRejection(paid);
    RunOne(paid, FUNDED, RequestStep(7, HOLD, false), ONE_HELD, Approving()[1..]);
    RunOne(paid, ONE_HELD, RequestStep(7, HOLD, false), BOTH_HELD, Approving()[2..]);
    RunOne(paid, BOTH_HELD, ApproveStep(1, 0), ONE_APPROVED, [RejectStep(0)] + ([Answer(0, APPROVED)] + last));
    RunOne(paid, ONE_APPROVED, RejectStep(0), RETURNED_LATE, [Answer(0, APPROVED)] + last);
    RunOne(paid, RETURNED_LATE, Answer(0, APPROVED), PAID_TOO, last);
    RunOne(paid, PAID_TOO, ApproveStep(1, 1), OTHER_APPROVED, []);
  }

  lemma StaleRejectionPaysTwice(paid: nat -> bool)
    requires AllPaid(paid)
    ensures ReturnedAndPaid(Withdrawals.Run(paid, START, Opening(Approving())))
  {
    OpeningRun(paid, Approving());
    ApprovingRun(paid);
    OtherApprovedIsShort();
  }
}
