/**
 Withdrawals: a request holds the money in the user's pending account, an administrator approves or
 rejects it, and the payment gateway's answers settle the hold or return it.

 Every transition is one commit. Guards were read before it, so a commit may find another status
 than its guard did; payout answers and repeated webhooks arrive in any order.
 */
module Withdrawals {
  import opened Ledger

  /** The request schema's minimum, in kobo. */
  const MINIMUM := 50_000

  type Amount = x: int | x >= MINIMUM witness MINIMUM

  datatype WithdrawalStatus = REQUESTED | UNDER_REVIEW | APPROVED | PROCESSING | PAID | FAILED | REJECTED

  /** `reviewedBy` is written by an approval and never cleared. */
  datatype Withdrawal = Withdrawal(user: Uuid, amount: Amount, status: WithdrawalStatus, reviewedBy: Option<Uuid>)

  /** A withdrawal's identifier is its position. */
  datatype Desk = Desk(books: Books, withdrawals: seq<Withdrawal>)

  // ---------------------------------------------------------------- commits

  function HoldLines(u: Uuid, amount: int): seq<Line> { Transfer(UserAvailable(u), UserPending(u), amount) }

  function SettleLines(u: Uuid, amount: int): seq<Line> { Transfer(UserPending(u), External, amount) }

  function ReverseLines(u: Uuid, amount: int): seq<Line> { Transfer(UserPending(u), UserAvailable(u), amount) }

  /** Posts with the user's pending account created if need be. */
  function PostPending(b: Books, u: Uuid, key: Key, lines: seq<Line>): (Books, PostResult) {
    Post(Open(b, UserPending(u)), key, lines)
  }

  function Request(s: Desk, u: Uuid, amount: Amount, review: bool): Desk {
    var (b, r) := PostPending(s.books, u, HoldKey(|s.withdrawals|), HoldLines(u, amount));
    if r.Rejected? then s
    else Desk(b, s.withdrawals + [Withdrawal(u, amount, if review then UNDER_REVIEW else REQUESTED, None)])
  }

  function WithStatus(ws: seq<Withdrawal>, w: nat, status: WithdrawalStatus): seq<Withdrawal>
    requires w < |ws|
  {
    ws[w := ws[w].(status := status)]
  }

  predicate AwaitsDecision(status: WithdrawalStatus) { status in {REQUESTED, UNDER_REVIEW} }

  /** Nobody approves their own withdrawal. */
  function Approve(s: Desk, admin: Uuid, w: nat): Desk {
    if w < |s.withdrawals| && s.withdrawals[w].user != admin then
      s.(withdrawals := s.withdrawals[w := s.withdrawals[w].(status := APPROVED, reviewedBy := Some(admin))])
    else s
  }

  function SettleResult(s: Desk, w: nat): (Books, PostResult)
    requires w < |s.withdrawals|
  {
    var row := s.withdrawals[w];
    PostPending(s.books, row.user, SettleKey(w), SettleLines(row.user, row.amount))
  }

  function ReverseResult(s: Desk, w: nat): (Books, PostResult)
    requires w < |s.withdrawals|
  {
    var row := s.withdrawals[w];
    PostPending(s.books, row.user, ReverseKey(w), ReverseLines(row.user, row.amount))
  }

  function SettleHold(s: Desk, w: nat): Desk
    requires w < |s.withdrawals|
  {
    var (b, r) := SettleResult(s, w);
    if r.Rejected? then s else Desk(b, WithStatus(s.withdrawals, w, PAID))
  }

  function ReverseHold(s: Desk, w: nat, status: WithdrawalStatus): Desk
    requires w < |s.withdrawals|
  {
    var (b, r) := ReverseResult(s, w);
    if r.Rejected? then s else Desk(b, WithStatus(s.withdrawals, w, status))
  }

  /** A terminal answer for a withdrawal whose row had the given status when it was read. */
  function Settle(s: Desk, w: nat, seen: WithdrawalStatus, success: bool): Desk {
    if w >= |s.withdrawals| || seen in {PAID, FAILED} then s
    else if success then SettleHold(s, w)
    else ReverseHold(s, w, FAILED)
  }

  // ---------------------------------------------------------------- runs

  datatype Step =
    | OpenAccountStep(account: AccountId)
    | Elsewhere(key: Key, lines: seq<Line>)
    | RequestStep(u: Uuid, amount: Amount, review: bool)
    | ApproveStep(admin: Uuid, w: nat)
    | RejectStep(w: nat)
    | PayoutRefused(w: nat)
    | PayoutAccepted(w: nat)
    | Answer(w: nat, seen: WithdrawalStatus)

  /** Movements of the rest of the system: they use their own keys and leave pending accounts alone. */
  predicate Foreign(key: Key, lines: seq<Line>) {
    !key.HoldKey? && !key.SettleKey? && !key.ReverseKey? && forall l :: l in lines ==> !l.account.UserPending?
  }

  predicate Sent(s: Desk, w: nat) { w < |s.withdrawals| && s.withdrawals[w].reviewedBy.Some? }

  /** `paid(w)` is the one terminal outcome the gateway has for reference `w`. An answer is a webhook,
      the first or a repeated one, or the payout call's own result. */
  function Next(paid: nat -> bool, s: Desk, step: Step): Desk {
    match step
    case OpenAccountStep(a) => if a.UserPending? then s else s.(books := Open(s.books, a))
    case Elsewhere(key, lines) => if Foreign(key, lines) then s.(books := Post(s.books, key, lines).0) else s
    case RequestStep(u, amount, review) => Request(s, u, amount, review)
    case ApproveStep(admin, w) => Approve(s, admin, w)
    case RejectStep(w) => if w < |s.withdrawals| then ReverseHold(s, w, REJECTED) else s
    case PayoutRefused(w) => if Sent(s, w) && !paid(w) then ReverseHold(s, w, FAILED) else s
    case PayoutAccepted(w) => if Sent(s, w) then s.(withdrawals := WithStatus(s.withdrawals, w, PROCESSING)) else s
    case Answer(w, seen) => if Sent(s, w) then Settle(s, w, seen, paid(w)) else s
  }

  function Run(paid: nat -> bool, s: Desk, steps: seq<Step>): Desk
    decreases |steps|
  {
    if steps == [] then s else Run(paid, Next(paid, s, steps[0]), steps[1..])
  }

  const START := Desk(EMPTY, [])

  /** A rejection commits on a withdrawal that nobody has approved; an approval on one that is undecided or
      already approved. Two administrators may approve, or reject, at once. */
  predicate FreshStep(s: Desk, step: Step) {
    && (step.RejectStep? ==> !Sent(s, step.w))
    && (step.ApproveStep? && step.w < |s.withdrawals| ==>
         AwaitsDecision(s.withdrawals[step.w].status) || Sent(s, step.w))
  }

  predicate Fresh(paid: nat -> bool, s: Desk, steps: seq<Step>)
    decreases |steps|
  {
    steps == [] || (FreshStep(s, steps[0]) && Fresh(paid, Next(paid, s, steps[0]), steps[1..]))
  }

  // ---------------------------------------------------------------- what is still held

  function Taken(j: seq<JournalEntry>, k: Key, amount: int): int { if KeyUsed(j, k) then amount else 0 }

  /** What a withdrawal still holds: its amount, less a settlement, less a reversal. */
  function Remaining(j: seq<JournalEntry>, ws: seq<Withdrawal>, i: nat): int
    requires i < |ws|
  {
    ws[i].amount - Taken(j, SettleKey(i), ws[i].amount) - Taken(j, ReverseKey(i), ws[i].amount)
  }

  function Owed(j: seq<JournalEntry>, ws: seq<Withdrawal>, u: Uuid, n: nat): int
    requires n <= |ws|
  {
    if n == 0 then 0 else Owed(j, ws, u, n - 1) + if ws[n - 1].user == u then Remaining(j, ws, n - 1) else 0
  }

  function Pending(b: Books, u: Uuid): int {
    if UserPending(u) in b.balances then b.balances[UserPending(u)] else 0
  }

  predicate SameRow(j: seq<JournalEntry>, ws: seq<Withdrawal>, j': seq<JournalEntry>, ws': seq<Withdrawal>, i: nat)
    requires i < |ws| && i < |ws'|
  {
    && ws[i].user == ws'[i].user && ws[i].amount == ws'[i].amount
    && (KeyUsed(j, SettleKey(i)) <==> KeyUsed(j', SettleKey(i)))
    && (KeyUsed(j, ReverseKey(i)) <==> KeyUsed(j', ReverseKey(i)))
  }

  lemma {:induction false} OwedSame(j: seq<JournalEntry>, ws: seq<Withdrawal>, j': seq<JournalEntry>,
                                    ws': seq<Withdrawal>, u: Uuid, n: nat)
    requires n <= |ws| && n <= |ws'| && forall i :: 0 <= i < n ==> SameRow(j, ws, j', ws', i)
    ensures Owed(j', ws', u, n) == Owed(j, ws, u, n)
  {
    if n > 0 {
      assert SameRow(j, ws, j', ws', n - 1);
      OwedSame(j, ws, j', ws', u, n - 1);
    }
  }

  lemma {:induction false} OwedChange(j: seq<JournalEntry>, ws: seq<Withdrawal>, j': seq<JournalEntry>,
                                      ws': seq<Withdrawal>, u: Uuid, n: nat, w: nat)
    requires w < n <= |ws| && n <= |ws'| && ws[w].user == ws'[w].user
    requires forall i :: 0 <= i < n && i != w ==> SameRow(j, ws, j', ws', i)
    ensures Owed(j', ws', u, n) ==
            Owed(j, ws, u, n) + if ws[w].user == u then Remaining(j', ws', w) - Remaining(j, ws, w) else 0
  {
    if n - 1 == w {
      OwedSame(j, ws, j', ws', u, w);
    } else {
      assert SameRow(j, ws, j', ws', n - 1);
      OwedChange(j, ws, j', ws', u, n - 1, w);
    }
  }

  // ---------------------------------------------------------------- invariants

  predicate PendingOk(s: Desk, u: Uuid) {
    Pending(s.books, u) == Owed(s.books.journal, s.withdrawals, u, |s.withdrawals|)
  }

  /** Keys of withdrawals that do not exist yet are unused. */
  predicate KeysOk(s: Desk, w: nat) {
    (KeyUsed(s.books.journal, HoldKey(w)) <==> w < |s.withdrawals|)
    && (KeyUsed(s.books.journal, SettleKey(w)) || KeyUsed(s.books.journal, ReverseKey(w)) ==> w < |s.withdrawals|)
  }

  /** A terminal status has its journal entry, a settlement was approved and paid by the gateway,
      nobody approved their own, and the requester's accounts exist. */
  predicate RowOk(paid: nat -> bool, s: Desk, w: nat)
    requires w < |s.withdrawals|
  {
    var row, j := s.withdrawals[w], s.books.journal;
    && (row.status == PAID ==> KeyUsed(j, SettleKey(w)))
    && (row.status in {FAILED, REJECTED} ==> KeyUsed(j, ReverseKey(w)))
    && (row.status in {APPROVED, PROCESSING} ==> row.reviewedBy.Some?)
    && (KeyUsed(j, SettleKey(w)) ==> row.reviewedBy.Some? && paid(w))
    && row.reviewedBy != Some(row.user)
    && UserAvailable(row.user) in s.books.balances && UserPending(row.user) in s.books.balances
  }

  ghost predicate Inv(paid: nat -> bool, s: Desk) {
    && Valid(s.books)
    && (forall u :: PendingOk(s, u))
    && (forall w :: KeysOk(s, w))
    && (forall w :: 0 <= w < |s.withdrawals| ==> RowOk(paid, s, w))
  }

  /** An undecided withdrawal is open, and what was approved is returned only if the gateway refused it. */
  predicate RowFresh(paid: nat -> bool, s: Desk, w: nat)
    requires w < |s.withdrawals|
  {
    var row, j := s.withdrawals[w], s.books.journal;
    && (AwaitsDecision(row.status) ==> row.reviewedBy.None? && !KeyUsed(j, SettleKey(w)) && !KeyUsed(j, ReverseKey(w)))
    && (KeyUsed(j, ReverseKey(w)) && row.reviewedBy.Some? ==> !paid(w))
  }

  ghost predicate FreshInv(paid: nat -> bool, s: Desk) {
    forall w :: 0 <= w < |s.withdrawals| ==> RowFresh(paid, s, w)
  }

  // ---------------------------------------------------------------- the three transfers

  /** A transfer through the user's pending account, created on the way if need be. */
  lemma PostPendingOutcome(b: Books, u: Uuid, key: Key, from: AccountId, to: AccountId, amount: int)
    requires Valid(b) && from != to && amount > 0
    ensures var (b', r) := PostPending(b, u, key, Transfer(from, to, amount)); var ready := Open(b, UserPending(u));
            && Valid(b')
            && (r.Replayed? <==> KeyUsed(b.journal, key))
            && (r.Replayed? ==> b' == ready)
            && b.balances.Keys + {UserPending(u)} <= b'.balances.Keys
            && (r.Posted? ==> from in ready.balances && to in ready.balances
                              && b'.journal == b.journal + [JournalEntry(key, Transfer(from, to, amount))]
                              && b'.balances == ready.balances[from := ready.balances[from] - amount]
                                                              [to := ready.balances[to] + amount])
            && (!KeyUsed(b.journal, key) ==>
                  (r.Posted? <==>
                     && from in ready.balances && to in ready.balances
                     && (NonNegative(from) ==> ready.balances[from] >= amount)))
  {
    OpenKeepsValid(b, UserPending(u));
    PostKeepsValid(Open(b, UserPending(u)), key, Transfer(from, to, amount));
    TransferOutcome(Open(b, UserPending(u)), key, from, to, amount);
  }

  /** A withdrawal's transition that posts nothing new. */
  lemma RowsOnly(paid: nat -> bool, s: Desk, s': Desk, w: nat)
    requires Inv(paid, s) && w < |s.withdrawals| == |s'.withdrawals| && Valid(s'.books) &&
             s'.books.journal == s.books.journal
    requires s.books.balances.Keys <= s'.books.balances.Keys && forall u :: Pending(s'.books, u) == Pending(s.books, u)
    requires forall i :: 0 <= i < |s.withdrawals| && i != w ==> s'.withdrawals[i] == s.withdrawals[i]
    requires s'.withdrawals[w].user == s.withdrawals[w].user && s'.withdrawals[w].amount == s.withdrawals[w].amount &&
             RowOk(paid, s', w)
    ensures Inv(paid, s')
  {
    var j, ws, ws' := s.books.journal, s.withdrawals, s'.withdrawals;
    forall u ensures PendingOk(s', u) {
      assert PendingOk(s, u);
      OwedSame(j, ws, j, ws', u, |ws|);
    }
    forall i ensures KeysOk(s', i) { assert KeysOk(s, i); }
    forall i | 0 <= i < |ws'| ensures RowOk(paid, s', i) { if i != w { assert RowOk(paid, s, i); } }
  }

  /** A withdrawal's settlement or reversal, posted for the first time. */
  lemma Resolved(paid: nat -> bool, s: Desk, s': Desk, w: nat, key: Key, lines: seq<Line>)
    requires Inv(paid, s) && w < |s.withdrawals| == |s'.withdrawals| && Valid(s'.books) &&
             key in {SettleKey(w), ReverseKey(w)}
    requires !KeyUsed(s.books.journal, key) && s'.books.journal == s.books.journal + [JournalEntry(key, lines)]
    requires s.books.balances.Keys <= s'.books.balances.Keys
    requires forall u ::
               Pending(s'.books, u) ==
               Pending(s.books, u) - if s.withdrawals[w].user == u then s.withdrawals[w].amount else 0
    requires forall i :: 0 <= i < |s.withdrawals| && i != w ==> s'.withdrawals[i] == s.withdrawals[i]
    requires s'.withdrawals[w].user == s.withdrawals[w].user && s'.withdrawals[w].amount == s.withdrawals[w].amount &&
             RowOk(paid, s', w)
    ensures Inv(paid, s')
  {
    var j, ws, j', ws' := s.books.journal, s.withdrawals, s'.books.journal, s'.withdrawals;
    KeysAfter(j, JournalEntry(key, lines));
    forall u ensures PendingOk(s', u) {
      assert PendingOk(s, u);
      forall i | 0 <= i < |ws| && i != w ensures SameRow(j, ws, j', ws', i) {}
      OwedChange(j, ws, j', ws', u, |ws|, w);
    }
    forall i ensures KeysOk(s', i) { assert KeysOk(s, i); }
    forall i | 0 <= i < |ws'| ensures RowOk(paid, s', i) { if i != w { assert RowOk(paid, s, i); } }
  }

  /** A new withdrawal, its hold posted. */
  lemma Requested(paid: nat -> bool, s: Desk, s': Desk, row: Withdrawal, lines: seq<Line>)
    requires Inv(paid, s) && Valid(s'.books) && s'.withdrawals == s.withdrawals + [row] && row.reviewedBy.None? &&
             AwaitsDecision(row.status)
    requires s'.books.journal == s.books.journal + [JournalEntry(HoldKey(|s.withdrawals|), lines)]
    requires s.books.balances.Keys + {UserAvailable(row.user), UserPending(row.user)} <= s'.books.balances.Keys
    requires forall x :: Pending(s'.books, x) == Pending(s.books, x) + if x == row.user then row.amount else 0
    ensures Inv(paid, s')
  {
    var j, ws, j', ws', n := s.books.journal, s.withdrawals, s'.books.journal, s'.withdrawals, |s.withdrawals|;
    KeysAfter(j, JournalEntry(HoldKey(n), lines));
    assert KeysOk(s, n);
    forall x ensures PendingOk(s', x) {
      assert PendingOk(s, x);
      forall i | 0 <= i < n ensures SameRow(j, ws, j', ws', i) {}
      OwedSame(j, ws, j', ws', x, n);
    }
    forall i ensures KeysOk(s', i) { assert KeysOk(s, i); }
    forall i | 0 <= i < |ws'| ensures RowOk(paid, s', i) { if i < n { assert RowOk(paid, s, i); } }
  }

  lemma RequestKeeps(paid: nat -> bool, s: Desk, u: Uuid, amount: Amount, review: bool)
    requires Inv(paid, s)
    ensures Inv(paid, Request(s, u, amount, review))
  {
    var s', n := Request(s, u, amount, review), |s.withdrawals|;
    assert KeysOk(s, n);
    PostPendingOutcome(s.books, u, HoldKey(n), UserAvailable(u), UserPending(u), amount);
    if !PostPending(s.books, u, HoldKey(n), HoldLines(u, amount)).1.Rejected? {
      Requested(paid, s, s', s'.withdrawals[n], HoldLines(u, amount));
    }
  }

  lemma SettleKeeps(paid: nat -> bool, s: Desk, w: nat)
    requires Inv(paid, s) && Sent(s, w) && paid(w)
    ensures Inv(paid, SettleHold(s, w))
  {
    var row, s', r := s.withdrawals[w], SettleHold(s, w), SettleResult(s, w).1;
    PostPendingOutcome(s.books, row.user, SettleKey(w), UserPending(row.user), External, row.amount);
    assert RowOk(paid, s, w);
    if r.Posted? {
      KeysAfter(s.books.journal, JournalEntry(SettleKey(w), SettleLines(row.user, row.amount)));
      Resolved(paid, s, s', w, SettleKey(w), SettleLines(row.user, row.amount));
    } else if r.Replayed? {
      RowsOnly(paid, s, s', w);
    }
  }

  lemma ReverseKeeps(paid: nat -> bool, s: Desk, w: nat, status: WithdrawalStatus)
    requires Inv(paid, s) && w < |s.withdrawals| && status in {FAILED, REJECTED}
    ensures Inv(paid, ReverseHold(s, w, status))
  {
    var row, s', r := s.withdrawals[w], ReverseHold(s, w, status), ReverseResult(s, w).1;
    PostPendingOutcome(s.books, row.user, ReverseKey(w), UserPending(row.user), UserAvailable(row.user), row.amount);
    assert RowOk(paid, s, w);
    if r.Posted? {
      KeysAfter(s.books.journal, JournalEntry(ReverseKey(w), ReverseLines(row.user, row.amount)));
      Resolved(paid, s, s', w, ReverseKey(w), ReverseLines(row.user, row.amount));
    } else if r.Replayed? {
      RowsOnly(paid, s, s', w);
    }
  }

  lemma ElsewhereKeeps(paid: nat -> bool, s: Desk, key: Key, lines: seq<Line>)
    requires Inv(paid, s) && Foreign(key, lines)
    ensures Inv(paid, Next(paid, s, Elsewhere(key, lines)))
  {
    var s' := Next(paid, s, Elsewhere(key, lines));
    PostKeepsValid(s.books, key, lines);
    if Post(s.books, key, lines).1.Posted? {
      PostedBalances(s.books, key, lines);
      KeysAfter(s.books.journal, JournalEntry(key, lines));
      forall u ensures PendingOk(s', u) {
        assert PendingOk(s, u);
        UntouchedLines(lines, UserPending(u));
        forall i | 0 <= i < |s.withdrawals|
          ensures SameRow(s.books.journal, s.withdrawals, s'.books.journal, s.withdrawals, i)
        {
        }
        OwedSame(s.books.journal, s.withdrawals, s'.books.journal, s.withdrawals, u, |s.withdrawals|);
      }
      forall i ensures KeysOk(s', i) { assert KeysOk(s, i); }
      forall i | 0 <= i < |s.withdrawals| ensures RowOk(paid, s', i) { assert RowOk(paid, s, i); }
    }
  }

  lemma StepKeepsInv(paid: nat -> bool, s: Desk, step: Step)
    requires Inv(paid, s)
    ensures Inv(paid, Next(paid, s, step))
  {
    match step
    case OpenAccountStep(a) =>
      OpenKeepsValid(s.books, a);
      var s' := Next(paid, s, step);
      forall u ensures PendingOk(s', u) { assert PendingOk(s, u); }
      forall i ensures KeysOk(s', i) { assert KeysOk(s, i); }
      forall i | 0 <= i < |s.withdrawals| ensures RowOk(paid, s', i) { assert RowOk(paid, s, i); }
    case Elsewhere(key, lines) => if Foreign(key, lines) { ElsewhereKeeps(paid, s, key, lines); }
    case RequestStep(u, amount, review) => RequestKeeps(paid, s, u, amount, review);
    case ApproveStep(admin, w) =>
      if w < |s.withdrawals| && s.withdrawals[w].user != admin {
        assert RowOk(paid, s, w);
        RowsOnly(paid, s, Approve(s, admin, w), w);
      }
    case RejectStep(w) => if w < |s.withdrawals| { ReverseKeeps(paid, s, w, REJECTED); }
    case PayoutRefused(w) => if Sent(s, w) { ReverseKeeps(paid, s, w, FAILED); }
    case PayoutAccepted(w) =>
      if Sent(s, w) {
        assert RowOk(paid, s, w);
        RowsOnly(paid, s, Next(paid, s, step), w);
      }
    case Answer(w, seen) =>
      if Sent(s, w) {
        if paid(w) { SettleKeeps(paid, s, w); } else { ReverseKeeps(paid, s, w, FAILED); }
      }
  }
}
