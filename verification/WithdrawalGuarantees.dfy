/**
 What holds of the money in withdrawals: over every run, and over every run in which a rejection
 commits on a withdrawal that nobody has approved and an approval on one that is undecided or already
 approved.
 */
module WithdrawalGuarantees {
  import opened Ledger
  import opened Withdrawals

  lemma {:induction false} RunKeepsInv(paid: nat -> bool, s: Desk, steps: seq<Withdrawals.Step>)
    requires Inv(paid, s)
    ensures Inv(paid, Withdrawals.Run(paid, s, steps))
    decreases |steps|
  {
    if steps != [] {
      StepKeepsInv(paid, s, steps[0]);
      RunKeepsInv(paid, Next(paid, s, steps[0]), steps[1..]);
    }
  }

  lemma StartInv(paid: nat -> bool)
    ensures Inv(paid, START) && FreshInv(paid, START)
  {
  }

  /** Over every interleaving, stale or not: a user's pending balance is the sum of the holds, less
      what was settled, less what was returned; terminal statuses have their journal entry; only
      approved withdrawals the gateway paid are settled; and nobody approved their own. */
  lemma PendingIsWhatIsHeld(paid: nat -> bool, steps: seq<Withdrawals.Step>, u: Uuid)
    ensures var s := Withdrawals.Run(paid, START, steps);
            && Valid(s.books)
            && Pending(s.books, u) == Owed(s.books.journal, s.withdrawals, u, |s.withdrawals|) >= 0
            && forall w :: 0 <= w < |s.withdrawals| ==> RowOk(paid, s, w)
  {
    StartInv(paid);
    RunKeepsInv(paid, START, steps);
    assert PendingOk(Withdrawals.Run(paid, START, steps), u);
  }

  // ---------------------------------------------------------------- fresh decisions

  /** The row of a withdrawal after a commit about it; the others are as they were. */
  lemma FreshFrame(paid: nat -> bool, s: Desk, s': Desk, w: nat)
    requires FreshInv(paid, s) && w < |s.withdrawals| == |s'.withdrawals| && RowFresh(paid, s', w)
    requires forall i ::
             0 <= i < |s.withdrawals| && i != w ==>
             s'.withdrawals[i] == s.withdrawals[i] &&
             SameRow(s.books.journal, s.withdrawals, s'.books.journal, s'.withdrawals, i)
    ensures FreshInv(paid, s')
  {
    forall i | 0 <= i < |s'.withdrawals| ensures RowFresh(paid, s', i) { if i != w { assert RowFresh(paid, s, i); } }
  }

  lemma SettleKeepsFresh(paid: nat -> bool, s: Desk, w: nat)
    requires Inv(paid, s) && FreshInv(paid, s) && Sent(s, w) && paid(w)
    ensures FreshInv(paid, SettleHold(s, w))
  {
    var row, r := s.withdrawals[w], SettleResult(s, w).1;
    PostPendingOutcome(s.books, row.user, SettleKey(w), UserPending(row.user), External, row.amount);
    assert RowFresh(paid, s, w);
    if !r.Rejected? {
      if r.Posted? { KeysAfter(s.books.journal, JournalEntry(SettleKey(w), SettleLines(row.user, row.amount))); }
      FreshFrame(paid, s, SettleHold(s, w), w);
    }
  }

  lemma ReverseKeepsFresh(paid: nat -> bool, s: Desk, w: nat, status: WithdrawalStatus)
    requires Inv(paid, s) && FreshInv(paid, s) && w < |s.withdrawals| && status in {FAILED, REJECTED}
    requires Sent(s, w) ==> !paid(w)
    ensures FreshInv(paid, ReverseHold(s, w, status))
  {
    var row, r := s.withdrawals[w], ReverseResult(s, w).1;
    PostPendingOutcome(s.books, row.user, ReverseKey(w), UserPending(row.user), UserAvailable(row.user), row.amount);
    assert RowFresh(paid, s, w);
    if !r.Rejected? {
      if r.Posted? { KeysAfter(s.books.journal, JournalEntry(ReverseKey(w), ReverseLines(row.user, row.amount))); }
      FreshFrame(paid, s, ReverseHold(s, w, status), w);
    }
  }

  lemma RequestKeepsFresh(paid: nat -> bool, s: Desk, u: Uuid, amount: Amount, review: bool)
    requires Inv(paid, s) && FreshInv(paid, s)
    ensures FreshInv(paid, Request(s, u, amount, review))
  {
    var s', n := Request(s, u, amount, review), |s.withdrawals|;
    assert KeysOk(s, n);
    PostPendingOutcome(s.books, u, HoldKey(n), UserAvailable(u), UserPending(u), amount);
    if |s'.withdrawals| == n + 1 {
      KeysAfter(s.books.journal, JournalEntry(HoldKey(n), HoldLines(u, amount)));
      forall i | 0 <= i < n + 1 ensures RowFresh(paid, s', i) { if i < n { assert RowFresh(paid, s, i); } }
    }
  }

  lemma ElsewhereKeepsFresh(paid: nat -> bool, s: Desk, key: Key, lines: seq<Line>)
    requires Inv(paid, s) && FreshInv(paid, s) && Foreign(key, lines)
    ensures FreshInv(paid, s.(books := Post(s.books, key, lines).0))
  {
    if Post(s.books, key, lines).1.Posted? {
      PostedBalances(s.books, key, lines);
      KeysAfter(s.books.journal, JournalEntry(key, lines));
      forall i | 0 <= i < |s.withdrawals|
        ensures RowFresh(paid, s.(books := Post(s.books, key, lines).0), i)
      {
        assert RowFresh(paid, s, i);
      }
    }
  }

  lemma StepKeepsFresh(paid: nat -> bool, s: Desk, step: Withdrawals.Step)
    requires Inv(paid, s) && FreshInv(paid, s) && FreshStep(s, step)
    ensures FreshInv(paid, Next(paid, s, step))
  {
    match step
    case OpenAccountStep(a) =>
      forall i | 0 <= i < |s.withdrawals| ensures RowFresh(paid, Next(paid, s, step), i) {
        assert RowFresh(paid, s, i);
      }
    case Elsewhere(key, lines) => if Foreign(key, lines) { ElsewhereKeepsFresh(paid, s, key, lines); }
    case RequestStep(u, amount, review) => RequestKeepsFresh(paid, s, u, amount, review);
    case ApproveStep(admin, w) =>
      if w < |s.withdrawals| && s.withdrawals[w].user != admin {
        assert RowFresh(paid, s, w);
        FreshFrame(paid, s, Approve(s, admin, w), w);
      }
    case RejectStep(w) =>
      if w < |s.withdrawals| { ReverseKeepsFresh(paid, s, w, REJECTED); }
    case PayoutRefused(w) => if Sent(s, w) && !paid(w) { ReverseKeepsFresh(paid, s, w, FAILED); }
    case PayoutAccepted(w) =>
      if Sent(s, w) {
        assert RowFresh(paid, s, w);
        FreshFrame(paid, s, Next(paid, s, step), w);
      }
    case Answer(w, seen) =>
      if Sent(s, w) && seen !in {PAID, FAILED} {
        if paid(w) { SettleKeepsFresh(paid, s, w); } else { ReverseKeepsFresh(paid, s, w, FAILED); }
      }
  }

  lemma {:induction false} FreshRunKeepsInv(paid: nat -> bool, s: Desk, steps: seq<Withdrawals.Step>)
    requires Inv(paid, s) && FreshInv(paid, s) && Fresh(paid, s, steps)
    ensures Inv(paid, Withdrawals.Run(paid, s, steps)) && FreshInv(paid, Withdrawals.Run(paid, s, steps))
    decreases |steps|
  {
    if steps != [] {
      StepKeepsInv(paid, s, steps[0]);
      StepKeepsFresh(paid, s, steps[0]);
      FreshRunKeepsInv(paid, Next(paid, s, steps[0]), steps[1..]);
    }
  }

  /** The holds of a user that are neither settled nor returned. */
  function Held(s: Desk, u: Uuid, n: nat): nat
    requires n <= |s.withdrawals|
  {
    if n == 0 then 0
    else
      var open := s.withdrawals[n - 1].user == u && !KeyUsed(s.books.journal, SettleKey(n - 1)) &&
        !KeyUsed(s.books.journal, ReverseKey(n - 1));
      Held(s, u, n - 1) + if open then s.withdrawals[n - 1].amount else 0
  }

  predicate Once(s: Desk, w: nat) {
    !(KeyUsed(s.books.journal, SettleKey(w)) && KeyUsed(s.books.journal, ReverseKey(w)))
  }

  lemma ResolvedOnce(paid: nat -> bool, s: Desk, w: nat)
    requires Inv(paid, s) && FreshInv(paid, s)
    ensures Once(s, w)
  {
    assert KeysOk(s, w);
    if w < |s.withdrawals| { assert RowFresh(paid, s, w) && RowOk(paid, s, w); }
  }

  lemma {:induction false} OwedIsHeld(s: Desk, u: Uuid, n: nat)
    requires n <= |s.withdrawals| && forall w :: Once(s, w)
    ensures Owed(s.books.journal, s.withdrawals, u, n) == Held(s, u, n)
  {
    if n > 0 {
      assert Once(s, n - 1);
      OwedIsHeld(s, u, n - 1);
    }
  }

  lemma {:induction false} HeldCovers(s: Desk, u: Uuid, n: nat, w: nat)
    requires w < n <= |s.withdrawals| && s.withdrawals[w].user == u
    requires !KeyUsed(s.books.journal, SettleKey(w)) && !KeyUsed(s.books.journal, ReverseKey(w))
    ensures Held(s, u, n) >= s.withdrawals[w].amount
  {
    if w < n - 1 { HeldCovers(s, u, n - 1, w); }
  }

  /** With fresh decisions every withdrawal is settled or returned at most once, and the pending
      balance is exactly the sum of the open holds. */
  lemma NoLimbo(paid: nat -> bool, steps: seq<Withdrawals.Step>, u: Uuid)
    requires Fresh(paid, START, steps)
    ensures var s := Withdrawals.Run(paid, START, steps);
            && (forall w :: Once(s, w))
            && Pending(s.books, u) == Held(s, u, |s.withdrawals|)
            && forall w :: 0 <= w < |s.withdrawals| && s.withdrawals[w].status in {PAID, FAILED, REJECTED} ==>
                 KeyUsed(s.books.journal, SettleKey(w)) || KeyUsed(s.books.journal, ReverseKey(w))
  {
    StartInv(paid);
    FreshRunKeepsInv(paid, START, steps);
    var s := Withdrawals.Run(paid, START, steps);
    forall w ensures Once(s, w) { ResolvedOnce(paid, s, w); }
    assert PendingOk(s, u);
    OwedIsHeld(s, u, |s.withdrawals|);
    forall w | 0 <= w < |s.withdrawals| && s.withdrawals[w].status in {PAID, FAILED, REJECTED}
      ensures KeyUsed(s.books.journal, SettleKey(w)) || KeyUsed(s.books.journal, ReverseKey(w))
    {
      assert RowOk(paid, s, w);
    }
  }

  /** With fresh decisions no settlement and no reversal that may commit is ever short of funds. */
  lemma NeverShort(paid: nat -> bool, steps: seq<Withdrawals.Step>, w: nat)
    requires Fresh(paid, START, steps) && External in Withdrawals.Run(paid, START, steps).books.balances
    requires w < |Withdrawals.Run(paid, START, steps).withdrawals|
    ensures var s := Withdrawals.Run(paid, START, steps);
            && (Sent(s, w) && paid(w) ==> !SettleResult(s, w).1.Rejected?)
            && (Sent(s, w) && !paid(w) ==> !ReverseResult(s, w).1.Rejected?)
            && (AwaitsDecision(s.withdrawals[w].status) ==> !ReverseResult(s, w).1.Rejected?)
  {
    StartInv(paid);
    FreshRunKeepsInv(paid, START, steps);
    var s := Withdrawals.Run(paid, START, steps);
    var row := s.withdrawals[w];
    NoLimbo(paid, steps, row.user);
    assert RowOk(paid, s, w) && RowFresh(paid, s, w);
    PostPendingOutcome(s.books, row.user, SettleKey(w), UserPending(row.user), External, row.amount);
    PostPendingOutcome(s.books, row.user, ReverseKey(w), UserPending(row.user), UserAvailable(row.user), row.amount);
    if !KeyUsed(s.books.journal, SettleKey(w)) && !KeyUsed(s.books.journal, ReverseKey(w)) {
      HeldCovers(s, row.user, |s.withdrawals|, w);
    }
  }

  // ---------------------------------------------------------------- exactly when a decision is safe

  /** The journal after a settlement that may have been refused. */
  function JournalAfter(s: Desk, w: nat): seq<JournalEntry>
    requires w < |s.withdrawals|
  {
    if SettleResult(s, w).1.Rejected? then s.books.journal else SettleResult(s, w).0.journal
  }

  lemma ApprovedThenPaid(paid: nat -> bool, s: Desk, admin: Uuid, w: nat, seen: WithdrawalStatus)
    requires w < |s.withdrawals| && s.withdrawals[w].user != admin && paid(w) && seen !in {PAID, FAILED}
    ensures Next(paid, Approve(s, admin, w), Answer(w, seen)).books.journal == JournalAfter(s, w)
  {
  }

  lemma SettledOnceIff(paid: nat -> bool, s: Desk, w: nat)
    requires Inv(paid, s) && FreshInv(paid, s) && w < |s.withdrawals| && paid(w) && External in s.books.balances
    requires Pending(s.books, s.withdrawals[w].user) == Held(s, s.withdrawals[w].user, |s.withdrawals|)
    ensures KeyUsed(JournalAfter(s, w), SettleKey(w)) && !KeyUsed(JournalAfter(s, w), ReverseKey(w)) <==>
            AwaitsDecision(s.withdrawals[w].status) || Sent(s, w)
  {
    var row := s.withdrawals[w];
    assert RowOk(paid, s, w) && RowFresh(paid, s, w);
    PostPendingOutcome(s.books, row.user, SettleKey(w), UserPending(row.user), External, row.amount);
    KeysAfter(s.books.journal, JournalEntry(SettleKey(w), SettleLines(row.user, row.amount)));
    if !KeyUsed(s.books.journal, SettleKey(w)) && !KeyUsed(s.books.journal, ReverseKey(w)) {
      HeldCovers(s, row.user, |s.withdrawals|, w);
    }
  }

  /** An approval followed by the gateway's payment settles the hold, and only once, exactly when the
      approval commits on a withdrawal that is undecided or was approved before. */
  lemma ApprovalSafeIff(paid: nat -> bool, steps: seq<Withdrawals.Step>, admin: Uuid, w: nat, seen: WithdrawalStatus)
    requires Fresh(paid, START, steps) && paid(w) && seen !in {PAID, FAILED}
    requires var s := Withdrawals.Run(paid, START, steps);
             w < |s.withdrawals| && s.withdrawals[w].user != admin && External in s.books.balances
    ensures var s := Withdrawals.Run(paid, START, steps); var s' := Next(paid, Approve(s, admin, w), Answer(w, seen));
            KeyUsed(s'.books.journal, SettleKey(w)) && Once(s', w) <==>
              AwaitsDecision(s.withdrawals[w].status) || Sent(s, w)
  {
    var s := Withdrawals.Run(paid, START, steps);
    StartInv(paid);
    FreshRunKeepsInv(paid, START, steps);
    NoLimbo(paid, steps, s.withdrawals[w].user);
    SettledOnceIff(paid, s, w);
    ApprovedThenPaid(paid, s, admin, w, seen);
  }

  /** A rejection returns a hold that nobody had approved exactly when its guard still held. */
  lemma RejectionReturnsIff(paid: nat -> bool, steps: seq<Withdrawals.Step>, w: nat)
    requires Fresh(paid, START, steps) && w < |Withdrawals.Run(paid, START, steps).withdrawals|
    ensures var s := Withdrawals.Run(paid, START, steps);
            ReverseResult(s, w).1.Posted? && !Sent(s, w) <==> AwaitsDecision(s.withdrawals[w].status)
  {
    var s := Withdrawals.Run(paid, START, steps);
    var row := s.withdrawals[w];
    StartInv(paid);
    FreshRunKeepsInv(paid, START, steps);
    NoLimbo(paid, steps, row.user);
    assert RowOk(paid, s, w) && RowFresh(paid, s, w);
    PostPendingOutcome(s.books, row.user, ReverseKey(w), UserPending(row.user), UserAvailable(row.user), row.amount);
    if AwaitsDecision(row.status) { HeldCovers(s, row.user, |s.withdrawals|, w); }
  }

  /** Whatever fresh steps follow, the withdrawal is not both settled and returned. */
  ghost predicate NeverBoth(paid: nat -> bool, s: Desk, w: nat) {
    forall more :: Fresh(paid, s, more) ==> Once(Withdrawals.Run(paid, s, more), w)
  }

  /** A rejection that commits on an approved withdrawal returns its hold, if the pending account covers
      it. */
  lemma LateRejection(paid: nat -> bool, s: Desk, w: nat)
    requires Inv(paid, s) && FreshInv(paid, s) && Sent(s, w) && paid(w)
    ensures var row, s' := s.withdrawals[w], Next(paid, s, RejectStep(w));
            if Pending(s.books, row.user) < row.amount then s' == s
            else
              && s'.withdrawals == WithStatus(s.withdrawals, w, REJECTED) && KeyUsed(s'.books.journal, ReverseKey(w))
              && (KeyUsed(s'.books.journal, SettleKey(w)) <==> KeyUsed(s.books.journal, SettleKey(w)))
              && UserAvailable(row.user) in s'.books.balances &&
                   s'.books.balances[UserAvailable(row.user)] >= row.amount
  {
    var row := s.withdrawals[w];
    assert RowOk(paid, s, w) && RowFresh(paid, s, w);
    PostPendingOutcome(s.books, row.user, ReverseKey(w), UserPending(row.user), UserAvailable(row.user), row.amount);
    KeysAfter(s.books.journal, JournalEntry(ReverseKey(w), ReverseLines(row.user, row.amount)));
    assert NonNegative(UserAvailable(row.user)) && s.books.balances[UserAvailable(row.user)] >= 0;
  }

  /** The returned money, requested once more, covers the payment of the first request. */
  lemma RequestCovers(paid: nat -> bool, s: Desk, w: nat)
    requires Inv(paid, s) && Sent(s, w) && UserAvailable(s.withdrawals[w].user) in s.books.balances
    requires s.books.balances[UserAvailable(s.withdrawals[w].user)] >= s.withdrawals[w].amount
    ensures var row := s.withdrawals[w]; var s' := Next(paid, s, RequestStep(row.user, row.amount, false));
            && Sent(s', w) && s'.withdrawals[w] == row && Pending(s'.books, row.user) >= row.amount
            && (forall k: Key :: !k.HoldKey? ==> (KeyUsed(s'.books.journal, k) <==> KeyUsed(s.books.journal, k)))
            && (External in s.books.balances ==> External in s'.books.balances)
  {
    var row, n := s.withdrawals[w], |s.withdrawals|;
    assert KeysOk(s, n) && RowOk(paid, s, w);
    PostPendingOutcome(s.books, row.user, HoldKey(n), UserAvailable(row.user), UserPending(row.user), row.amount);
    KeysAfter(s.books.journal, JournalEntry(HoldKey(n), HoldLines(row.user, row.amount)));
    assert NonNegative(UserPending(row.user)) && s.books.balances[UserPending(row.user)] >= 0;
  }

  lemma PaidAnswerSettles(paid: nat -> bool, s: Desk, w: nat)
    requires Inv(paid, s) && Sent(s, w) && paid(w) && External in s.books.balances
    requires Pending(s.books, s.withdrawals[w].user) >= s.withdrawals[w].amount
    requires KeyUsed(s.books.journal, ReverseKey(w))
    ensures !Once(Next(paid, s, Answer(w, APPROVED)), w)
  {
    var row := s.withdrawals[w];
    assert RowOk(paid, s, w);
    PostPendingOutcome(s.books, row.user, SettleKey(w), UserPending(row.user), External, row.amount);
    KeysAfter(s.books.journal, JournalEntry(SettleKey(w), SettleLines(row.user, row.amount)));
  }

  lemma RunThree(paid: nat -> bool, s: Desk, a: Withdrawals.Step, b: Withdrawals.Step, c: Withdrawals.Step)
    ensures Withdrawals.Run(paid, s, [a, b, c]) == Next(paid, Next(paid, Next(paid, s, a), b), c)
    ensures !a.RejectStep? && !a.ApproveStep? && !b.RejectStep? && !b.ApproveStep? && !c.RejectStep? &&
            !c.ApproveStep? ==>
              Fresh(paid, s, [a, b, c])
  {
    var s1 := Next(paid, s, a);
    var s2 := Next(paid, s1, b);
    assert [a, b, c][1..] == [b, c] && [b, c][1..] == [c] && [c][1..] == [];
    assert Withdrawals.Run(paid, s2, [c]) == Next(paid, s2, c);
    assert Withdrawals.Run(paid, s1, [b, c]) == Withdrawals.Run(paid, s2, [c]);
    assert Fresh(paid, s2, [c]) <==> FreshStep(s2, c);
    assert Fresh(paid, s1, [b, c]) <==> FreshStep(s1, b) && Fresh(paid, s2, [c]);
  }

  /** Once it was returned, an approved withdrawal that the gateway pays can be settled too. */
  lemma ReturnedIsPaidToo(paid: nat -> bool, s: Desk, w: nat)
    requires Inv(paid, s) && Sent(s, w) && paid(w) && KeyUsed(s.books.journal, ReverseKey(w))
    requires UserAvailable(s.withdrawals[w].user) in s.books.balances
    requires s.books.balances[UserAvailable(s.withdrawals[w].user)] >= s.withdrawals[w].amount
    ensures !NeverBoth(paid, s, w)
  {
    var row := s.withdrawals[w];
    var open, request, answer := OpenAccountStep(External), RequestStep(row.user, row.amount, false),
      Answer(w, APPROVED);
    var s1 := Next(paid, s, open);
    StepKeepsInv(paid, s, open);
    RequestCovers(paid, s1, w);
    StepKeepsInv(paid, s1, request);
    PaidAnswerSettles(paid, Next(paid, s1, request), w);
    RunThree(paid, s, open, request, answer);
    assert Fresh(paid, s, [open, request, answer]);
  }

  lemma FreshIsOnce(paid: nat -> bool, s: Desk, w: nat)
    requires Inv(paid, s) && FreshInv(paid, s)
    ensures NeverBoth(paid, s, w)
  {
    forall more | Fresh(paid, s, more) ensures Once(Withdrawals.Run(paid, s, more), w) {
      FreshRunKeepsInv(paid, s, more);
      ResolvedOnce(paid, Withdrawals.Run(paid, s, more), w);
    }
  }

  lemma RejectionHarmsIff(paid: nat -> bool, s: Desk, w: nat)
    requires Inv(paid, s) && FreshInv(paid, s) && w < |s.withdrawals|
    ensures NeverBoth(paid, Next(paid, s, RejectStep(w)), w) <==>
            !Sent(s, w) || !paid(w) || Pending(s.books, s.withdrawals[w].user) < s.withdrawals[w].amount
  {
    var s' := Next(paid, s, RejectStep(w));
    StepKeepsInv(paid, s, RejectStep(w));
    if Sent(s, w) && paid(w) {
      LateRejection(paid, s, w);
      if Pending(s.books, s.withdrawals[w].user) >= s.withdrawals[w].amount {
        ReturnedIsPaidToo(paid, s', w);
      } else {
        FreshIsOnce(paid, s, w);
      }
    } else {
      ReverseKeepsFresh(paid, s, w, REJECTED);
      FreshIsOnce(paid, s', w);
    }
  }

  /** Exactly when a rejection is safe. Fresh steps after it never both settle and return the withdrawal if
      and only if nobody has approved it, or the gateway does not pay it, or the rejection aborts because
      the hold is gone. Before the hold is settled it does not abort: then a withdrawal the gateway pays
      must not have been approved. */
  lemma RejectionSafeIff(paid: nat -> bool, steps: seq<Withdrawals.Step>, w: nat)
    requires Fresh(paid, START, steps) && w < |Withdrawals.Run(paid, START, steps).withdrawals|
    ensures var s := Withdrawals.Run(paid, START, steps);
            && (NeverBoth(paid, Next(paid, s, RejectStep(w)), w) <==>
                  !Sent(s, w) || !paid(w) || Pending(s.books, s.withdrawals[w].user) < s.withdrawals[w].amount)
            && (paid(w) && !KeyUsed(s.books.journal, SettleKey(w)) ==>
                  (NeverBoth(paid, Next(paid, s, RejectStep(w)), w) <==> !Sent(s, w)))
  {
    var s := Withdrawals.Run(paid, START, steps);
    StartInv(paid);
    FreshRunKeepsInv(paid, START, steps);
    NoLimbo(paid, steps, s.withdrawals[w].user);
    RejectionHarmsIff(paid, s, w);
    assert RowFresh(paid, s, w);
    if paid(w) && Sent(s, w) && !KeyUsed(s.books.journal, SettleKey(w)) {
      HeldCovers(s, s.withdrawals[w].user, |s.withdrawals|, w);
    }
  }

  // ---------------------------------------------------------------- repeated answers

  /** However late an answer is repeated, it moves no money; and it repairs the status that a late
      PROCESSING write has overwritten. */
  lemma RepeatedAnswer(paid: nat -> bool, steps: seq<Withdrawals.Step>, w: nat, seen: WithdrawalStatus)
    requires var s := Withdrawals.Run(paid, START, steps);
             Sent(s, w) && seen !in {PAID, FAILED} &&
               KeyUsed(s.books.journal, if paid(w) then SettleKey(w) else ReverseKey(w))
    ensures var s := Withdrawals.Run(paid, START, steps);
            && Next(paid, s, Answer(w, seen)).books == s.books
            && Next(paid, s, Answer(w, seen)).withdrawals ==
                 WithStatus(s.withdrawals, w, if paid(w) then PAID else FAILED)
  {
    StartInv(paid);
    RunKeepsInv(paid, START, steps);
    var s := Withdrawals.Run(paid, START, steps);
    var row := s.withdrawals[w];
    assert RowOk(paid, s, w);
    PostPendingOutcome(s.books, row.user, SettleKey(w), UserPending(row.user), External, row.amount);
    PostPendingOutcome(s.books, row.user, ReverseKey(w), UserPending(row.user), UserAvailable(row.user), row.amount);
  }
}
