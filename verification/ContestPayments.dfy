/**
 What leaves an escrow: refunds and prizes. In every run whose charged submissions avoid closed
 contests no entry is both refunded and paid, and an escrow that has paid anything is empty.
 */
module ContestPayments {
  import opened Ledger
  import opened Ranking
  import opened ContestMoney
  import opened ContestTransfers
  import opened ContestSafety
  import opened ContestClosing

  /** Closed for good: no money left, and no way to bring any in. */
  ghost predicate Drained(v: View) {
    v.contest.Some? && IsClosed(v.contest.value.status) && v.escrow == Some(0)
  }

  ghost predicate SomePrize(v: View) {
    exists e :: e in v.entries && v.entries[e].prize != 0
  }

  /** A contest that has refunded, paid or settled anything is drained, and no refunded entry has a
      prize. */
  ghost predicate PaidView(v: View) {
    && (v.escrow.None? ==> v.refunded == {} && !v.settled)
    && (v.refunded != {} || v.settled || SomePrize(v) ==> Drained(v))
    && (forall e :: e in v.refunded && e in v.entries ==> v.entries[e].prize == 0)
  }

  /** A charged submission finds its contest open. */
  predicate OnTimeStep(w: World, s: Step) {
    Charges(w, s) && s.c in w.contests ==> !IsClosed(w.contests[s.c].status)
  }

  predicate OnTime(w: World, steps: seq<Step>)
    decreases |steps|
  {
    steps == [] || (OnTimeStep(w, steps[0]) && OnTime(Next(w, steps[0]), steps[1..]))
  }

  ghost predicate RankingOk(w: World, op: Uuid) {
    op in w.pending && w.pending[op].SettleSnapshot? ==> Distinct(w.pending[op].ranked)
  }

  ghost predicate PaidInv(w: World) {
    Inv(w) && (forall op :: RankingOk(w, op)) && forall c :: PaidView(ViewOf(w, c))
  }

  // ---------------------------------------------------------------- preservation

  lemma CalledKeepsPaid(v: View, v': View, ids: seq<Uuid>, seen: bool)
    requires GoodView(v) && PaidView(v) && Changes(v, v', Called(ids, seen))
    ensures PaidView(v')
  {
    if seen {
      FeeTimes(v.contest.value.fee, |Elements(ids) - v.refunded|);
      forall e | e in v'.refunded && e in v'.entries ensures v'.entries[e].prize == 0 {
        if e !in v.refunded {
          assert e in Elements(ids) - v.refunded;
          assert v.escrow.value > 0;
          assert !SomePrize(v);
        }
      }
    } else {
      assert MarkRefunded(v.entries, ids) == v.entries;
      assert v'.refunded == v.refunded;
      assert Elements(ids) - v.refunded == {};
      assert v'.escrow == v.escrow;
      assert SomePrize(v') <==> SomePrize(v);
    }
  }

  lemma RankedKeepsPaid(v: View, v': View, ranked: seq<Uuid>)
    requires GoodView(v) && PaidView(v) && Changes(v, v', PaidRanking(ranked))
    ensures PaidView(v')
  {
    if v.escrow.value > 0 && ranked == [] { assert v'.entries == v.entries; }
    if v.escrow.value <= 0 || ranked == [] { assert SomePrize(v') <==> SomePrize(v); }
  }

  lemma EnteredKeepsPaid(v: View, v': View, e: Uuid, x: Entry)
    requires GoodView(v) && PaidView(v) && Changes(v, v', Entered(e, x))
    requires x.charged ==> !Drained(v)
    requires e !in v.refunded
    ensures PaidView(v')
  {
    assert SomePrize(v') <==> SomePrize(v) by {
      if SomePrize(v) {
        var y :| y in v.entries && v.entries[y].prize != 0;
        assert y in v'.entries && v'.entries[y].prize != 0;
      }
    }
  }

  lemma ChangeKeepsPaid(v: View, v': View, ch: Change)
    requires GoodView(v) && PaidView(v) && Changes(v, v', ch)
    requires ch.Entered? ==> (ch.entry.charged ==> !Drained(v)) && ch.e !in v.refunded
    ensures PaidView(v')
  {
    match ch
    case Entered(e, x) => EnteredKeepsPaid(v, v', e, x);
    case Called(ids, seen) => CalledKeepsPaid(v, v', ids, seen);
    case PaidRanking(ranked) => RankedKeepsPaid(v, v', ranked);
    case _ => assert SomePrize(v') <==> SomePrize(v);
  }

  lemma StepKeepsPaidView(w: World, s: Step, c: Uuid)
    requires Inv(w) && PaidView(ViewOf(w, c))
    requires Charges(w, s) && s.c == c ==> !Drained(ViewOf(w, c))
    ensures PaidView(ViewOf(Next(w, s), c))
  {
    assert GoodView(ViewOf(w, c));
    StepShape(w, s);
    if c == ContestOf(w, s) {
      if ChangeOf(w, s).Entered? { EnteredIsCharged(w, s); }
      ChangeKeepsPaid(ViewOf(w, c), ViewOf(Next(w, s), c), ChangeOf(w, s));
    }
  }

  lemma StepKeepsRankings(w: World, s: Step)
    requires forall op :: RankingOk(w, op)
    ensures forall op :: RankingOk(Next(w, s), op)
  {
    forall op ensures RankingOk(Next(w, s), op) {
      if op in Next(w, s).pending {
        NextPending(w, s, op);
        assert RankingOk(w, op);
      }
    }
  }

  lemma StepKeepsPaid(w: World, s: Step)
    requires PaidInv(w) && (Charges(w, s) ==> !Drained(ViewOf(w, s.c)))
    ensures PaidInv(Next(w, s))
  {
    StepKeepsInv(w, s);
    StepKeepsRankings(w, s);
    forall c ensures PaidView(ViewOf(Next(w, s), c)) { StepKeepsPaidView(w, s, c); }
  }

  lemma {:induction false} RunKeepsPaid(w: World, steps: seq<Step>)
    requires PaidInv(w) && OnTime(w, steps)
    ensures PaidInv(ContestMoney.Run(w, steps))
    decreases |steps|
  {
    if steps != [] {
      StepKeepsPaid(w, steps[0]);
      RunKeepsPaid(Next(w, steps[0]), steps[1..]);
    }
  }

  lemma OnTimeRun(steps: seq<Step>)
    requires OnTime(START, steps)
    ensures PaidInv(ContestMoney.Run(START, steps))
  {
    StartInv();
    forall c ensures PaidView(ViewOf(START, c)) {
      assert ViewOf(START, c).entries == map[] && ViewOf(START, c).refunded == {};
    }
    RunKeepsPaid(START, steps);
  }

  // ---------------------------------------------------------------- theorems

  /** The entry has a prize, and its refund is in the journal. */
  predicate PaidTwice(w: World, e: Uuid) {
    e in w.entries && w.entries[e].prize != 0 && KeyUsed(w.books.journal, RefundKey(e))
  }

  lemma NeverTwice(w: World, e: Uuid)
    requires PaidInv(w)
    ensures !PaidTwice(w, e)
  {
    if e in w.entries && KeyUsed(w.books.journal, RefundKey(e)) {
      var v := ViewOf(w, w.entries[e].contest);
      assert PaidView(v) && e in v.refunded && e in v.entries;
    }
  }

  /** However cancellations and settlements overlap, no entry is both refunded and paid a prize, in
      every run in which no charged submission enters a closed contest. */
  lemma NoDoublePayment(steps: seq<Step>, e: Uuid)
    requires OnTime(START, steps)
    ensures var w := ContestMoney.Run(START, steps);
            e in w.entries && w.entries[e].prize != 0 ==> !KeyUsed(w.books.journal, RefundKey(e))
  {
    OnTimeRun(steps);
    NeverTwice(ContestMoney.Run(START, steps), e);
  }

  /** An account's balance is the money that came into it less the money that left it. */
  lemma ZeroBalanceConserves(b: Books, a: AccountId)
    requires Valid(b) && a in b.balances
    ensures b.balances[a] == Credits(AllLines(b.journal), a) - Debits(AllLines(b.journal), a)
  {
    assert Reconciled(b, a);
    JournalTotalIsLinesTotal(b.journal, a);
    CreditsMinusDebits(AllLines(b.journal), a);
  }

  /** Once an entry of a contest was refunded or paid, or its settlement posted, everything that
      ever entered the escrow has left it. */
  lemma PaidMeansEmpty(steps: seq<Step>, c: Uuid)
    requires OnTime(START, steps)
    ensures var w := ContestMoney.Run(START, steps);
            (|| KeyUsed(w.books.journal, SettlementKey(c))
             || (exists e :: e in w.entries && w.entries[e].contest == c &&
                             (w.entries[e].prize != 0 || KeyUsed(w.books.journal, RefundKey(e)))))
            ==> && Exists(w, ContestEscrow(c))
                && Credits(AllLines(w.books.journal), ContestEscrow(c)) ==
                     Debits(AllLines(w.books.journal), ContestEscrow(c))
  {
    OnTimeRun(steps);
    var w := ContestMoney.Run(START, steps);
    var v := ViewOf(w, c);
    assert PaidView(v);
    if e :| e in w.entries && w.entries[e].contest == c &&
            (w.entries[e].prize != 0 || KeyUsed(w.books.journal, RefundKey(e))) {
      assert e in v.entries && (e in v.refunded || SomePrize(v));
    }
    if Drained(v) { ZeroBalanceConserves(w.books, ContestEscrow(c)); }
  }
}
