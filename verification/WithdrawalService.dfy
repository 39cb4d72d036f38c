/**
 The withdrawal service as it runs: each method guards on the row it reads, posts through the
 ledger in place and writes the row; an abort restores what its transaction had changed.
 */
module WithdrawalService {
  import opened Ledger
  import opened Withdrawals

  datatype Decision = Done | NotFound | InvalidStatus | SelfApproval | Aborted

  datatype PayoutResult = Processing | PaidNow | Refused

  class Service {
    const ledger: LedgerService
    var withdrawals: seq<Withdrawal>

    ghost function State(): Desk
      reads this, ledger
    {
      Desk(ledger.State(), withdrawals)
    }

    constructor (ledger: LedgerService)
      ensures this.ledger == ledger && withdrawals == []
    {
      this.ledger := ledger;
      withdrawals := [];
    }

    /** One ledger transaction through the user's pending account. */
    method PostInTransaction(u: Uuid, key: Key, lines: seq<Line>) returns (committed: bool)
      modifies ledger
      ensures var (b, r) := PostPending(old(ledger.State()), u, key, lines);
              committed == !r.Rejected? && ledger.State() == if committed then b else old(ledger.State())
    {
      var savedBalances, savedJournal := ledger.balances, ledger.journal;
      var _ := ledger.OpenAccount(UserPending(u));
      var r := ledger.PostJournal(key, lines);
      committed := !r.Rejected?;
      if !committed { ledger.balances, ledger.journal := savedBalances, savedJournal; }
    }

    method RequestWithdrawal(u: Uuid, amount: Amount, review: bool) returns (id: Option<nat>)
      modifies this, ledger
      ensures State() == Request(old(State()), u, amount, review)
      ensures id == if |withdrawals| > |old(withdrawals)| then Some(|old(withdrawals)|) else None
    {
      var w := |withdrawals|;
      var committed := PostInTransaction(u, HoldKey(w), HoldLines(u, amount));
      if !committed {
        return None;
      }
      withdrawals := withdrawals + [Withdrawal(u, amount, if review then UNDER_REVIEW else REQUESTED, None)];
      return Some(w);
    }

    /** Records the approval; the payout follows in a separate transaction. */
    method ApproveWithdrawal(admin: Uuid, w: nat) returns (d: Decision)
      modifies this
      ensures d.Done? <==>
              w < |old(withdrawals)| && AwaitsDecision(old(withdrawals)[w].status) && old(withdrawals)[w].user != admin
      ensures d.NotFound? <==> w >= |old(withdrawals)|
      ensures d.InvalidStatus? <==> w < |old(withdrawals)| && !AwaitsDecision(old(withdrawals)[w].status)
      ensures State() == if d.Done? then Approve(old(State()), admin, w) else old(State())
    {
      if w >= |withdrawals| { return NotFound; }
      if withdrawals[w].status != REQUESTED && withdrawals[w].status != UNDER_REVIEW { return InvalidStatus; }
      if withdrawals[w].user == admin { return SelfApproval; }
      withdrawals := withdrawals[w := withdrawals[w].(status := APPROVED, reviewedBy := Some(admin))];
      return Done;
    }

    method Reverse(w: nat, status: WithdrawalStatus) returns (committed: bool)
      requires w < |withdrawals|
      modifies this, ledger
      ensures State() == ReverseHold(old(State()), w, status)
      ensures committed == !ReverseResult(old(State()), w).1.Rejected?
    {
      var row := withdrawals[w];
      committed := PostInTransaction(row.user, ReverseKey(w), ReverseLines(row.user, row.amount));
      if committed { withdrawals := withdrawals[w := row.(status := status)]; }
    }

    method RejectWithdrawal(w: nat) returns (d: Decision)
      modifies this, ledger
      ensures d in {Done, Aborted} <==> w < |old(withdrawals)| && AwaitsDecision(old(withdrawals)[w].status)
      ensures d.NotFound? <==> w >= |old(withdrawals)|
      ensures State() == if d in {Done, Aborted} then ReverseHold(old(State()), w, REJECTED) else old(State())
      ensures d in {Done, Aborted} ==> (d == Done <==> !ReverseResult(old(State()), w).1.Rejected?)
    {
      if w >= |withdrawals| { return NotFound; }
      if withdrawals[w].status != REQUESTED && withdrawals[w].status != UNDER_REVIEW { return InvalidStatus; }
      var committed := Reverse(w, REJECTED);
      return if committed then Done else Aborted;
    }

    /** Terminal settlement from a gateway confirmation. */
    method SettleWithdrawal(w: nat, success: bool)
      modifies this, ledger
      ensures State() ==
              if w < |old(withdrawals)| then Settle(old(State()), w, old(withdrawals)[w].status, success)
              else old(State())
    {
      if w >= |withdrawals| || withdrawals[w].status == PAID || withdrawals[w].status == FAILED { return; }
      if !success {
        var _ := Reverse(w, FAILED);
        return;
      }
      var row := withdrawals[w];
      var committed := PostInTransaction(row.user, SettleKey(w), SettleLines(row.user, row.amount));
      if committed { withdrawals := withdrawals[w := row.(status := PAID)]; }
    }

    /** What follows the gateway's direct result for an approved withdrawal; the result agrees with
        the reference's terminal outcome. */
    method RecordPayout(w: nat, result: PayoutResult, ghost paid: nat -> bool)
      requires w < |withdrawals| && withdrawals[w].reviewedBy.Some?
      requires (result == Refused ==> !paid(w)) && (result == PaidNow ==> paid(w))
      modifies this, ledger
      ensures result == Refused ==> State() == Next(paid, old(State()), PayoutRefused(w))
      ensures result == Processing ==> State() == Next(paid, old(State()), PayoutAccepted(w))
      ensures result == PaidNow ==>
              State() == Next(paid, Next(paid, old(State()), PayoutAccepted(w)), Answer(w, PROCESSING))
    {
      if result == Refused {
        var _ := Reverse(w, FAILED);
        return;
      }
      withdrawals := withdrawals[w := withdrawals[w].(status := PROCESSING)];
      if result == PaidNow { SettleWithdrawal(w, true); }
    }
  }
}
