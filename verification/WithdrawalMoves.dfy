/**
 What each withdrawal commit does to the money and to its row: a hold moves from the user's wallet to
 the pending account, a settlement from there to the outside, a reversal back to the same user's wallet, and
 nothing else moves.
 */
module WithdrawalMoves {
  import opened Ledger
  import opened Withdrawals

  /** The hold was taken: the wallet covers it, the new row waits for a decision, under review exactly when
      the risk check asked for it. */
  ghost predicate Requested(s: Desk, s': Desk, u: Uuid, amount: int, review: bool) {
    var n := |s.withdrawals|;
    && |s'.withdrawals| == n + 1 && s'.withdrawals[..n] == s.withdrawals
    && s'.withdrawals[n].user == u && s'.withdrawals[n].amount == amount && s'.withdrawals[n].reviewedBy.None?
    && (s'.withdrawals[n].status == UNDER_REVIEW <==> review)
    && (s'.withdrawals[n].status == REQUESTED <==> !review)
    && MovesOnly(Open(s.books, UserPending(u)), s'.books, UserAvailable(u), UserPending(u), amount)
  }

  lemma HoldMoves(s: Desk, u: Uuid, key: Key, from: AccountId, to: AccountId, amount: int)
    requires Valid(s.books) && from != to && amount > 0 &&
             PostPending(s.books, u, key, Transfer(from, to, amount)).1.Posted?
    ensures MovesOnly(Open(s.books, UserPending(u)), PostPending(s.books, u, key, Transfer(from, to, amount)).0,
                      from, to, amount)
  {
    OpenKeepsValid(s.books, UserPending(u));
    TransferOutcome(Open(s.books, UserPending(u)), key, from, to, amount);
  }

  /** A request is accepted exactly when the user has a wallet that covers it. */
  lemma RequestEffect(paid: nat -> bool, s: Desk, u: Uuid, amount: Amount, review: bool)
    requires Inv(paid, s)
    ensures var s' := Request(s, u, amount, review);
            if UserAvailable(u) in s.books.balances && s.books.balances[UserAvailable(u)] >= amount
            then Requested(s, s', u, amount, review)
            else s' == s
  {
    var n := |s.withdrawals|;
    assert KeysOk(s, n);
    PostPendingOutcome(s.books, u, HoldKey(n), UserAvailable(u), UserPending(u), amount);
    if PostPending(s.books, u, HoldKey(n), HoldLines(u, amount)).1.Posted? {
      HoldMoves(s, u, HoldKey(n), UserAvailable(u), UserPending(u), amount);
    }
  }

  /** An approval is recorded, with its administrator, for somebody else's withdrawal only. */
  lemma ApprovalEffect(s: Desk, admin: Uuid, w: nat)
    ensures var s' := Approve(s, admin, w);
            if w < |s.withdrawals| && s.withdrawals[w].user != admin then
              && s'.books == s.books && |s'.withdrawals| == |s.withdrawals|
              && s'.withdrawals[w].status == APPROVED && s'.withdrawals[w].reviewedBy == Some(admin)
              && s'.withdrawals[w].user == s.withdrawals[w].user && s'.withdrawals[w].amount == s.withdrawals[w].amount
              && (forall i :: 0 <= i < |s.withdrawals| && i != w ==> s'.withdrawals[i] == s.withdrawals[i])
            else s' == s
  {
  }

  /** A hold left the pending account for another one, now or before, and its row got the status. */
  ghost predicate Resolved(s: Desk, s': Desk, w: nat, key: Key, to: AccountId, status: WithdrawalStatus)
    requires w < |s.withdrawals|
  {
    var row := s.withdrawals[w];
    && s'.withdrawals == s.withdrawals[w := row.(status := status)]
    && (if KeyUsed(s.books.journal, key) then s'.books == s.books
        else KeyUsed(s'.books.journal, key) && MovesOnly(s.books, s'.books, UserPending(row.user), to, row.amount))
  }

  /** The hold is still there to leave, or has left before. */
  predicate CanLeave(s: Desk, w: nat, key: Key, to: AccountId)
    requires w < |s.withdrawals|
  {
    KeyUsed(s.books.journal, key) ||
    (to in s.books.balances && Pending(s.books, s.withdrawals[w].user) >= s.withdrawals[w].amount)
  }

  /** A settlement pays the hold out, if it can, and otherwise changes nothing. */
  lemma SettlementEffect(paid: nat -> bool, s: Desk, w: nat)
    requires Inv(paid, s) && w < |s.withdrawals|
    ensures var s' := SettleHold(s, w);
            if CanLeave(s, w, SettleKey(w), External) then Resolved(s, s', w, SettleKey(w), External, PAID) else s' == s
  {
    var row := s.withdrawals[w];
    assert RowOk(paid, s, w);
    PostPendingOutcome(s.books, row.user, SettleKey(w), UserPending(row.user), External, row.amount);
    if SettleResult(s, w).1.Posted? {
      HoldMoves(s, row.user, SettleKey(w), UserPending(row.user), External, row.amount);
      KeysAfter(s.books.journal, JournalEntry(SettleKey(w), SettleLines(row.user, row.amount)));
    }
  }

  /** A reversal returns the hold to the user who made the request, if it can, and otherwise changes
      nothing. */
  lemma ReversalEffect(paid: nat -> bool, s: Desk, w: nat, status: WithdrawalStatus)
    requires Inv(paid, s) && w < |s.withdrawals|
    ensures var s', wallet := ReverseHold(s, w, status), UserAvailable(s.withdrawals[w].user);
            if CanLeave(s, w, ReverseKey(w), wallet) then Resolved(s, s', w, ReverseKey(w), wallet, status) else s' == s
  {
    var row := s.withdrawals[w];
    assert RowOk(paid, s, w);
    PostPendingOutcome(s.books, row.user, ReverseKey(w), UserPending(row.user), UserAvailable(row.user), row.amount);
    if ReverseResult(s, w).1.Posted? {
      HoldMoves(s, row.user, ReverseKey(w), UserPending(row.user), UserAvailable(row.user), row.amount);
      KeysAfter(s.books.journal, JournalEntry(ReverseKey(w), ReverseLines(row.user, row.amount)));
    }
  }

  /** What the gateway's answer does to an approved withdrawal: nothing on a row that was read as paid or
      failed; otherwise a payment settles the hold and a refusal returns it. */
  lemma AnswerEffect(paid: nat -> bool, s: Desk, w: nat, seen: WithdrawalStatus)
    requires Inv(paid, s) && Sent(s, w)
    ensures var wallet := UserAvailable(s.withdrawals[w].user); var s' := Next(paid, s, Answer(w, seen));
            if seen in {PAID, FAILED} then s' == s
            else if paid(w) && CanLeave(s, w, SettleKey(w), External)
              then Resolved(s, s', w, SettleKey(w), External, PAID)
            else if !paid(w) && CanLeave(s, w, ReverseKey(w), wallet)
              then Resolved(s, s', w, ReverseKey(w), wallet, FAILED)
            else s' == s
  {
    if paid(w) { SettlementEffect(paid, s, w); } else { ReversalEffect(paid, s, w, FAILED); }
  }

  /** An accepted payout only shows: no money moves. */
  lemma AcceptanceEffect(paid: nat -> bool, s: Desk, w: nat)
    requires Sent(s, w)
    ensures var s' := Next(paid, s, PayoutAccepted(w));
            && s'.books == s.books && |s'.withdrawals| == |s.withdrawals|
            && s'.withdrawals[w].status == PROCESSING
            && (forall i :: 0 <= i < |s.withdrawals| ==>
                  s'.withdrawals[i].(status := s.withdrawals[i].status) == s.withdrawals[i])
            && (forall i :: 0 <= i < |s.withdrawals| && i != w ==> s'.withdrawals[i] == s.withdrawals[i])
  {
  }
}
