/**
 Safety of contest money over every run, however stale the guards: what each operation changes, contest
 by contest, the bound on every escrow, and one entry per user.
 */
module ContestSafety {
  import opened Ledger
  import opened Ranking
  import opened ContestMoney
  import opened ContestTransfers

  // ---------------------------------------------------------------- invariant of every run

  /** The escrow never holds more than the fees of the charged active entries. */
  ghost predicate GoodView(v: View) {
    && (v.contest.None? ==> v.escrow.None?)
    && (v.escrow.None? ==> v.entries == map[])
    && (v.escrow.Some? ==> 0 <= v.escrow.value <= v.contest.value.fee * |ChargedActive(v.entries)|)
  }

  ghost predicate GoodSnapshot(w: World, s: Snapshot) {
    && s.contest in w.contests
    && (var ids := if s.CancelSnapshot? then s.entries else s.ranked;
        forall id :: id in ids ==> id in w.entries && w.entries[id].contest == s.contest)
    && (s.CancelSnapshot? && !s.escrowSeen ==> s.entries == [])
    && (s.CancelSnapshot? && s.escrowSeen ==> Exists(w, ContestEscrow(s.contest)))
  }

  ghost predicate Base(w: World) {
    && Valid(w.books)
    && (forall e :: e in w.entries ==>
         w.entries[e].contest in w.contests && Exists(w, UserAvailable(w.entries[e].user)))
    && (forall e :: KeyUsed(w.books.journal, RefundKey(e)) ==> e in w.entries)
    && (forall op :: op in w.pending ==> GoodSnapshot(w, w.pending[op]))
  }

  ghost predicate Inv(w: World) {
    Base(w) && forall c :: GoodView(ViewOf(w, c))
  }

  // ---------------------------------------------------------------- frames

  /** A step leaves the view of every contest but `c` as it was. */
  ghost predicate OthersSame(w: World, w': World, c: Uuid) {
    forall d :: d != c ==> ViewOf(w', d) == ViewOf(w, d)
  }

  /** The ledger of `b'` continues that of `b`: no account disappears, escrows other than that of
      `c` keep their balance, and every refund or settlement key added concerns `c`. */
  ghost predicate BooksFrame(b: Books, b': Books, entries: map<Uuid, Entry>, c: Uuid) {
    && b.balances.Keys <= b'.balances.Keys
    && (forall d :: d != c ==> EscrowIn(b', d) == EscrowIn(b, d))
    && (forall e :: KeyUsed(b.journal, RefundKey(e)) ==> KeyUsed(b'.journal, RefundKey(e)))
    && (forall e :: KeyUsed(b'.journal, RefundKey(e)) && !KeyUsed(b.journal, RefundKey(e)) ==>
         e in entries && entries[e].contest == c)
    && (forall d :: d != c ==> (KeyUsed(b'.journal, SettlementKey(d)) <==> KeyUsed(b.journal, SettlementKey(d))))
  }

  /** Entries of other contests are untouched and no entry changes contest. */
  ghost predicate EntriesFrame(entries: map<Uuid, Entry>, entries': map<Uuid, Entry>, c: Uuid) {
    && entries.Keys <= entries'.Keys
    && (forall e :: e in entries ==> entries'[e].contest == entries[e].contest && entries'[e].user == entries[e].user)
    && (forall e :: e in entries && entries[e].contest != c ==> entries'[e] == entries[e])
    && (forall e :: e in entries' && e !in entries ==> entries'[e].contest == c)
  }

  ghost predicate WorldFrame(w: World, w': World, c: Uuid) {
    && BooksFrame(w.books, w'.books, w.entries, c)
    && EntriesFrame(w.entries, w'.entries, c)
    && w.contests.Keys <= w'.contests.Keys
    && (forall d :: d != c ==>
          (d in w'.contests <==> d in w.contests) && (d in w.contests ==> w'.contests[d] == w.contests[d]))
  }

  lemma FrameView(w: World, w': World, c: Uuid, d: Uuid)
    requires Base(w) && WorldFrame(w, w', c) && d != c
    ensures ViewOf(w', d) == ViewOf(w, d)
  {
    var v, v' := ViewOf(w, d), ViewOf(w', d);
    assert v'.entries == v.entries;
    assert v'.refunded == v.refunded;
  }

  lemma FrameOthers(w: World, w': World, c: Uuid)
    requires Base(w) && WorldFrame(w, w', c)
    ensures OthersSame(w, w', c)
  {
    forall d | d != c ensures ViewOf(w', d) == ViewOf(w, d) { FrameView(w, w', c, d); }
  }

  lemma FrameBase(w: World, w': World, c: Uuid)
    requires Base(w) && WorldFrame(w, w', c) && Valid(w'.books)
    requires forall e ::
             e in w'.entries && e !in w.entries ==> c in w'.contests && Exists(w', UserAvailable(w'.entries[e].user))
    requires forall op :: op in w'.pending ==>
             (op in w.pending && w'.pending[op] == w.pending[op]) || GoodSnapshot(w', w'.pending[op])
    ensures Base(w')
  {
    forall op | op in w'.pending ensures GoodSnapshot(w', w'.pending[op]) {
      if op in w.pending && w'.pending[op] == w.pending[op] {
        assert GoodSnapshot(w, w.pending[op]);
      }
    }
  }

  // ---------------------------------------------------------------- submissions

  /** The fee posting: the escrow gains the fee exactly when the key is new. */
  lemma FeePost(b: Books, c: Uuid, u: Uuid, client: Uuid, fee: Fee)
    requires Valid(b) && UserAvailable(u) in b.balances && ContestEscrow(c) in b.balances
    ensures var (b', r) := Post(b, EntryKey(client), Transfer(UserAvailable(u), ContestEscrow(c), fee));
            !r.Rejected? ==>
              && Valid(b') && b'.balances.Keys == b.balances.Keys
              && (r.Posted? <==> !KeyUsed(b.journal, EntryKey(client)))
              && b'.balances[ContestEscrow(c)] == b.balances[ContestEscrow(c)] + (if r.Posted? then fee else 0)
              && (forall d :: d != c ==> EscrowIn(b', d) == EscrowIn(b, d))
              && (forall k :: KeyUsed(b'.journal, k) <==> KeyUsed(b.journal, k) || k == EntryKey(client))
  {
    var lines := Transfer(UserAvailable(u), ContestEscrow(c), fee);
    TransferOutcome(b, EntryKey(client), UserAvailable(u), ContestEscrow(c), fee);
    PostKeepsValid(b, EntryKey(client), lines);
    KeysAfter(b.journal, JournalEntry(EntryKey(client), lines));
  }

  lemma SubmitFrame(w: World, c: Uuid, u: Uuid, client: Uuid, e: Uuid)
    requires Base(w) && Submit(w, c, u, client, e) != w
    ensures var w' := Submit(w, c, u, client, e);
            Base(w') && WorldFrame(w, w', c)
  {
    var w' := Submit(w, c, u, client, e);
    FeePost(w.books, c, u, client, w.contests[c].fee);
    assert BooksFrame(w.books, w'.books, w.entries, c);
    assert EntriesFrame(w.entries, w'.entries, c);
    FrameBase(w, w', c);
  }

  /** The contest's side of a submission that goes through. */
  lemma SubmitView(w: World, c: Uuid, u: Uuid, client: Uuid, e: Uuid)
    requires Base(w) && Submit(w, c, u, client, e) != w
    ensures var w' := Submit(w, c, u, client, e);
            var v := ViewOf(w, c);
            var charged := !KeyUsed(w.books.journal, EntryKey(client));
            && v.contest.Some? && v.escrow.Some? && e !in v.entries
            && ViewOf(w', c) == v.(escrow := Some(v.escrow.value + if charged then v.contest.value.fee else 0),
                                   entries := v.entries[e := Entry(c, u, ACTIVE, charged, 0, None)])
  {
    var w' := Submit(w, c, u, client, e);
    FeePost(w.books, c, u, client, w.contests[c].fee);
    ViewAfterEntry(w, w', c, e);
  }

  /** A submission that goes through: one more active entry, and one more fee in the escrow, out of the
      user's wallet, exactly when its key was new. */
  lemma SubmitEffect(w: World, c: Uuid, u: Uuid, client: Uuid, e: Uuid)
    requires Base(w) && Submit(w, c, u, client, e) != w
    ensures var w' := Submit(w, c, u, client, e);
            var v := ViewOf(w, c);
            var charged := !KeyUsed(w.books.journal, EntryKey(client));
            && v.contest.Some? && v.escrow.Some? && e !in v.entries
            && ViewOf(w', c) == v.(escrow := Some(v.escrow.value + if charged then v.contest.value.fee else 0),
                                   entries := v.entries[e := Entry(c, u, ACTIVE, charged, 0, None)])
            && MovesOnly(w.books, w'.books, UserAvailable(u), ContestEscrow(c),
                         if charged then v.contest.value.fee else 0)
  {
    SubmitView(w, c, u, client, e);
    SubmitMoves(w, c, u, client, e);
  }

  lemma SubmitMoves(w: World, c: Uuid, u: Uuid, client: Uuid, e: Uuid)
    requires Base(w) && Submit(w, c, u, client, e) != w
    ensures c in w.contests
    ensures MovesOnly(w.books, Submit(w, c, u, client, e).books, UserAvailable(u), ContestEscrow(c),
                      if KeyUsed(w.books.journal, EntryKey(client)) then 0 else w.contests[c].fee)
  {
    TransferOutcome(w.books, EntryKey(client), UserAvailable(u), ContestEscrow(c), w.contests[c].fee);
  }

  /** Exactly when a submission is accepted: the contest, the user's wallet and the escrow exist, the entry is
      new, the user has no entry in this contest, and the wallet covers the fee unless the key was used. */
  lemma SubmitIff(w: World, c: Uuid, u: Uuid, client: Uuid, e: Uuid)
    requires Base(w)
    ensures Submit(w, c, u, client, e) != w <==>
            && c in w.contests && Exists(w, UserAvailable(u)) && Exists(w, ContestEscrow(c)) && e !in w.entries
            && (forall x :: x in w.entries ==> !(w.entries[x].contest == c && w.entries[x].user == u))
            && (KeyUsed(w.books.journal, EntryKey(client)) ||
                w.books.balances[UserAvailable(u)] >= w.contests[c].fee)
  {
    if c in w.contests {
      TransferOutcome(w.books, EntryKey(client), UserAvailable(u), ContestEscrow(c), w.contests[c].fee);
    }
    assert e in Submit(w, c, u, client, e).entries && e !in w.entries ==> Submit(w, c, u, client, e) != w;
  }

  lemma ViewAfterEntry(w: World, w': World, c: Uuid, e: Uuid)
    requires w'.contests == w.contests && e !in w.entries
    requires w'.entries.Keys == w.entries.Keys + {e} && w'.entries[e].contest == c
    requires forall x :: x in w.entries ==> w'.entries[x] == w.entries[x]
    requires !KeyUsed(w.books.journal, RefundKey(e))
    requires forall k: Key :: !k.EntryKey? ==> (KeyUsed(w'.books.journal, k) <==> KeyUsed(w.books.journal, k))
    ensures ViewOf(w', c) ==
            ViewOf(w, c).(escrow := EscrowIn(w'.books, c), entries := ViewOf(w, c).entries[e := w'.entries[e]])
  {
  }

  // ---------------------------------------------------------------- cancellation

  /** The books after a cancellation that commits. */
  lemma CancelBooks(w: World, snap: Snapshot)
    requires Base(w) && snap.CancelSnapshot? && GoodSnapshot(w, snap) && Cancel(w, snap).Some?
    ensures var c, b, b' := snap.contest, w.books, Cancel(w, snap).value.books;
            && Valid(b') && b'.balances.Keys == b.balances.Keys
            && (forall d :: d != c ==> EscrowIn(b', d) == EscrowIn(b, d))
            && (EscrowIn(b, c).Some? ==>
                 EscrowIn(b', c) == Some(EscrowIn(b, c).value - w.contests[c].fee * |Unrefunded(b, snap.entries)|))
            && (if snap.escrowSeen then EscrowIn(b', c) == Some(0) else snap.entries == [])
            && (forall k :: KeyUsed(b'.journal, k) <==>
                 KeyUsed(b.journal, k) || (k.RefundKey? && k.entry in snap.entries))
  {
    var c, w' := snap.contest, Cancel(w, snap).value;
    if snap.escrowSeen {
      RefundAllEscrow(w.books, c, w.contests[c].fee, w.entries, snap.entries);
    } else {
      assert w'.books == w.books;
      assert Unrefunded(w.books, snap.entries) == {};
    }
  }

  /** Every refund goes to the wallet of the entry's own user. */
  lemma CancelWallets(w: World, snap: Snapshot)
    requires Base(w) && snap.CancelSnapshot? && GoodSnapshot(w, snap) && Cancel(w, snap).Some?
    ensures WalletsRefunded(w.books, Cancel(w, snap).value.books, w.entries, snap.contest, w.contests[snap.contest].fee,
                            snap.entries)
  {
    if snap.escrowSeen {
      RefundAllWallets(w.books, snap.contest, w.contests[snap.contest].fee, w.entries, snap.entries);
    } else {
      NobodyRefunded(w.books, w.entries, snap.contest, w.contests[snap.contest].fee);
    }
  }

  lemma CancelFrame(w: World, snap: Snapshot)
    requires Base(w) && snap.CancelSnapshot? && GoodSnapshot(w, snap) && Cancel(w, snap).Some?
    ensures Base(Cancel(w, snap).value) && WorldFrame(w, Cancel(w, snap).value, snap.contest)
  {
    var c, w' := snap.contest, Cancel(w, snap).value;
    CancelBooks(w, snap);
    assert BooksFrame(w.books, w'.books, w.entries, c);
    assert EntriesFrame(w.entries, w'.entries, c);
    FrameBase(w, w', c);
  }

  /** The contest's side of a cancellation that commits. */
  lemma CancelView(w: World, snap: Snapshot)
    requires Base(w) && snap.CancelSnapshot? && GoodSnapshot(w, snap) && Cancel(w, snap).Some?
    ensures var v, v' := ViewOf(w, snap.contest), ViewOf(Cancel(w, snap).value, snap.contest);
            && v.contest.Some? && v'.contest == Some(v.contest.value.(status := Cancelled))
            && v'.entries == MarkRefunded(v.entries, snap.entries)
            && v'.refunded == v.refunded + Elements(snap.entries)
            && v'.settled == v.settled
            && (v.escrow.Some? <==> v'.escrow.Some?)
            && (v.escrow.Some? ==>
                 v'.escrow.value == v.escrow.value - v.contest.value.fee * |Unrefunded(w.books, snap.entries)|)
            && (if snap.escrowSeen then v.escrow.Some? && v'.escrow == Some(0) else snap.entries == [])
  {
    var c, w' := snap.contest, Cancel(w, snap).value;
    CancelBooks(w, snap);
    ViewAfterCancel(w, w', c, snap.entries);
  }

  /** A cancellation that commits: the listed entries refunded, each to its own user's wallet, out of the
      escrow. */
  lemma CancelEffect(w: World, snap: Snapshot)
    requires Base(w) && snap.CancelSnapshot? && GoodSnapshot(w, snap) && Cancel(w, snap).Some?
    ensures var v, v' := ViewOf(w, snap.contest), ViewOf(Cancel(w, snap).value, snap.contest);
            && v.contest.Some? && v'.contest == Some(v.contest.value.(status := Cancelled))
            && v'.entries == MarkRefunded(v.entries, snap.entries)
            && v'.refunded == v.refunded + Elements(snap.entries)
            && v'.settled == v.settled
            && (v.escrow.Some? <==> v'.escrow.Some?)
            && (v.escrow.Some? ==>
                 v'.escrow.value == v.escrow.value - v.contest.value.fee * |Unrefunded(w.books, snap.entries)|)
            && (if snap.escrowSeen then v.escrow.Some? && v'.escrow == Some(0) else snap.entries == [])
            && WalletsRefunded(w.books, Cancel(w, snap).value.books, w.entries, snap.contest, v.contest.value.fee,
                               snap.entries)
  {
    CancelView(w, snap);
    CancelWallets(w, snap);
  }

  lemma ViewAfterCancel(w: World, w': World, c: Uuid, ids: seq<Uuid>)
    requires w'.entries == MarkRefunded(w.entries, ids)
    requires forall id :: id in ids ==> id in w.entries && w.entries[id].contest == c
    requires forall k :: KeyUsed(w'.books.journal, k) <==>
             KeyUsed(w.books.journal, k) || (k.RefundKey? && k.entry in ids)
    ensures ViewOf(w', c).entries == MarkRefunded(ViewOf(w, c).entries, ids)
    ensures ViewOf(w', c).refunded == ViewOf(w, c).refunded + Elements(ids)
    ensures ViewOf(w', c).settled == ViewOf(w, c).settled
  {
  }

  // ---------------------------------------------------------------- settlement

  lemma InitOrLast(ranked: seq<Uuid>, e: Uuid)
    requires ranked != []
    ensures e in ranked <==> e == ranked[|ranked| - 1] || e in ranked[..|ranked| - 1]
  {
  }

  lemma {:induction false} WriteRanksEffect(entries: map<Uuid, Entry>, ranked: seq<Uuid>)
    requires forall id :: id in ranked ==> id in entries
    ensures var es := WriteRanks(entries, ranked);
            && (forall e :: e in entries && e !in ranked ==> es[e] == entries[e])
            && (forall e :: e in ranked ==> es[e] == entries[e].(status := SETTLED, finalRank := es[e].finalRank))
  {
    if ranked != [] {
      var n := |ranked| - 1;
      WriteRanksEffect(entries, ranked[..n]);
      forall e ensures e in ranked <==> e == ranked[n] || e in ranked[..n] { InitOrLast(ranked, e); }
    }
  }

  /** The entry in place i gets rank i + 1: a bijection from the ranking onto 1, …, n. */
  lemma {:induction false} WriteRanksInOrder(entries: map<Uuid, Entry>, ranked: seq<Uuid>)
    requires Distinct(ranked) && forall id :: id in ranked ==> id in entries
    ensures forall i :: 0 <= i < |ranked| ==>
            ranked[i] in entries && WriteRanks(entries, ranked)[ranked[i]].finalRank == Some(i + 1)
  {
    if ranked != [] {
      var n := |ranked| - 1;
      assert forall i :: 0 <= i < n ==> ranked[..n][i] == ranked[i];
      WriteRanksInOrder(entries, ranked[..n]);
      forall i | 0 <= i < |ranked| ensures ranked[i] in entries { assert ranked[i] in ranked; }
    }
  }

  lemma {:induction false} WritePrizesEffect(entries: map<Uuid, Entry>, ranked: seq<Uuid>, prizes: seq<int>)
    requires |prizes| <= |ranked| && forall id :: id in ranked ==> id in entries
    ensures var es := WritePrizes(entries, ranked, prizes);
            && (forall e :: e in entries ==> es[e] == entries[e].(prize := es[e].prize))
            && (forall e :: e in entries && e !in ranked ==> es[e] == entries[e])
    decreases |prizes|
  {
    if prizes != [] {
      WritePrizesEffect(entries, ranked, prizes[..|prizes| - 1]);
    }
  }

  /** The entries after a settlement that commits. */
  ghost predicate Ranked(entries: map<Uuid, Entry>, entries': map<Uuid, Entry>, ranked: seq<Uuid>) {
    && entries'.Keys == entries.Keys
    && (forall e :: e in entries && e !in ranked ==> entries'[e] == entries[e])
    && (forall e :: e in ranked ==> e in entries)
    && (forall e :: e in ranked ==>
         entries'[e] == entries[e].(status := SETTLED, finalRank := entries'[e].finalRank, prize := entries'[e].prize))
  }

  lemma SettleEntries(w: World, snap: Snapshot)
    requires snap.SettleSnapshot? && Settle(w, snap).Some?
    ensures Ranked(w.entries, Settle(w, snap).value.entries, snap.ranked)
    ensures w.books.balances[ContestEscrow(snap.contest)] <= 0 ==>
              forall e :: e in w.entries ==> Settle(w, snap).value.entries[e].prize == w.entries[e].prize
  {
    var c, ranked, w' := snap.contest, snap.ranked, Settle(w, snap).value;
    if w.books.balances[ContestEscrow(c)] > 0 && ranked != [] {
      var p := PayOut(w.books, c, w.contests[c], Users(w.entries, ranked)).value;
      WritePrizesEffect(w.entries, ranked, p.prizes);
      WriteRanksEffect(WritePrizes(w.entries, ranked, p.prizes), ranked);
    } else {
      WriteRanksEffect(w.entries, ranked);
    }
  }

  /** The books after a settlement that commits. */
  lemma SettleBooks(w: World, snap: Snapshot)
    requires Base(w) && snap.SettleSnapshot? && Settle(w, snap).Some?
    ensures var c, b, b' := snap.contest, w.books, Settle(w, snap).value.books;
            && Valid(b') && b'.balances.Keys == b.balances.Keys
            && EscrowIn(b, c).Some?
            && (if EscrowIn(b, c).value > 0 && snap.ranked != [] then
                  && EscrowIn(b', c) == Some(0)
                  && (forall d :: d != c ==> EscrowIn(b', d) == EscrowIn(b, d))
                  && !KeyUsed(b.journal, SettlementKey(c))
                  && (forall k :: KeyUsed(b'.journal, k) <==> KeyUsed(b.journal, k) || k == SettlementKey(c))
                else b' == b)
  {
    var c := snap.contest;
    if w.books.balances[ContestEscrow(c)] > 0 && snap.ranked != [] {
      PayOutEffect(w.books, c, w.contests[c], Users(w.entries, snap.ranked));
    }
  }

  lemma RankedFrame(entries: map<Uuid, Entry>, entries': map<Uuid, Entry>, ranked: seq<Uuid>, c: Uuid)
    requires Ranked(entries, entries', ranked) && forall id :: id in ranked ==> entries[id].contest == c
    ensures EntriesFrame(entries, entries', c)
  {
  }

  lemma SettleFrameParts(w: World, w': World, snap: Snapshot)
    requires Base(w) && snap.SettleSnapshot? && GoodSnapshot(w, snap) && Valid(w'.books)
    requires w'.pending == w.pending && w'.books.balances.Keys == w.books.balances.Keys
    requires snap.contest in w'.contests && w'.contests == w.contests[snap.contest := w'.contests[snap.contest]]
    requires EntriesFrame(w.entries, w'.entries, snap.contest) && w'.entries.Keys == w.entries.Keys
    requires forall d :: d != snap.contest ==> EscrowIn(w'.books, d) == EscrowIn(w.books, d)
    requires forall k: Key :: k != SettlementKey(snap.contest) ==> (KeyUsed(w'.books.journal, k) <==>
             KeyUsed(w.books.journal, k))
    ensures Base(w') && WorldFrame(w, w', snap.contest)
  {
    FrameBase(w, w', snap.contest);
  }

  lemma SettleRows(w: World, snap: Snapshot)
    requires snap.SettleSnapshot? && Settle(w, snap).Some?
    ensures var w' := Settle(w, snap).value;
            && w'.pending == w.pending && snap.contest in w.contests
            && w'.contests == w.contests[snap.contest := w.contests[snap.contest].(status := Settled)]
  {
  }

  lemma SettleFrame(w: World, snap: Snapshot)
    requires Base(w) && snap.SettleSnapshot? && GoodSnapshot(w, snap) && Settle(w, snap).Some?
    ensures Base(Settle(w, snap).value) && WorldFrame(w, Settle(w, snap).value, snap.contest)
  {
    var w' := Settle(w, snap).value;
    SettleEntries(w, snap);
    RankedFrame(w.entries, w'.entries, snap.ranked, snap.contest);
    SettleBooks(w, snap);
    SettleRows(w, snap);
    SettleFrameParts(w, w', snap);
  }

  /** A settlement that commits: the contest is settled, and either the whole balance was paid out
      under a new key or there was nothing, or nobody, to pay. */
  lemma SettleEffect(w: World, snap: Snapshot)
    requires Base(w) && snap.SettleSnapshot? && GoodSnapshot(w, snap) && Settle(w, snap).Some?
    ensures var v, v' := ViewOf(w, snap.contest), ViewOf(Settle(w, snap).value, snap.contest);
            && v.contest.Some? && v'.contest == Some(v.contest.value.(status := Settled))
            && v.escrow.Some? && v'.escrow.Some?
            && Ranked(v.entries, v'.entries, snap.ranked)
            && v'.refunded == v.refunded
            && (v.escrow.value <= 0 ==> forall e :: e in v.entries ==> v'.entries[e].prize == v.entries[e].prize)
            && (if v.escrow.value > 0 && snap.ranked != [] then !v.settled && v'.settled && v'.escrow.value == 0
                else v'.settled == v.settled && v'.escrow == v.escrow)
  {
    var c, w' := snap.contest, Settle(w, snap).value;
    var v, v' := ViewOf(w, c), ViewOf(w', c);
    SettleEntries(w, snap);
    SettleBooks(w, snap);
    ViewAfterSettle(w, w', c, snap.ranked);
  }

  lemma ViewAfterSettle(w: World, w': World, c: Uuid, ranked: seq<Uuid>)
    requires Ranked(w.entries, w'.entries, ranked)
    requires forall id :: id in ranked ==> w.entries[id].contest == c
    requires forall k: Key :: !k.SettlementKey? ==> (KeyUsed(w'.books.journal, k) <==> KeyUsed(w.books.journal, k))
    ensures Ranked(ViewOf(w, c).entries, ViewOf(w', c).entries, ranked)
    ensures ViewOf(w', c).refunded == ViewOf(w, c).refunded
  {
  }

  // ---------------------------------------------------------------- every step, as a change of one view

  datatype Change =
    | Unchanged
    | Created(contest: Contest)
    | Opened
    | Moved(from: Status, to: Status)
    | Entered(e: Uuid, entry: Entry)
    | Called(ids: seq<Uuid>, escrowSeen: bool)
    | PaidRanking(ranked: seq<Uuid>)

  ghost predicate Changes(v: View, v': View, ch: Change) {
    match ch
    case Unchanged => v' == v
    case Created(k) => v.contest.None? && k.status == Draft && v' == v.(contest := Some(k))
    case Opened =>
      && v.contest.Some? && v.escrow.None?
      && v' == v.(contest := Some(v.contest.value.(status := Published)), escrow := Some(0))
    case Moved(from, to) =>
      && v.contest.Some? && v.contest.value.status == from
      && (from, to) in {(Published, Locked), (Locked, Scoring), (Scoring, Scored)}
      && v' == v.(contest := Some(v.contest.value.(status := to)))
    case Entered(e, x) =>
      && v.contest.Some? && v.escrow.Some? && e !in v.entries && x.status == ACTIVE && x.prize == 0
      && v' == v.(escrow := Some(v.escrow.value + if x.charged then v.contest.value.fee else 0),
           entries := v.entries[e := x])
    case Called(ids, seen) =>
      && v.contest.Some? && v'.contest == Some(v.contest.value.(status := Cancelled))
      && v'.entries == MarkRefunded(v.entries, ids) && v'.refunded == v.refunded + Elements(ids) &&
           v'.settled == v.settled
      && (v.escrow.Some? <==> v'.escrow.Some?)
      && (v.escrow.Some? ==> v'.escrow.value == v.escrow.value - v.contest.value.fee * |Elements(ids) - v.refunded|)
      && (if seen then v.escrow.Some? && v'.escrow == Some(0) else ids == [])
    case PaidRanking(ranked) =>
      && v.contest.Some? && v'.contest == Some(v.contest.value.(status := Settled))
      && v.escrow.Some? && v'.escrow.Some? && Ranked(v.entries, v'.entries, ranked) && v'.refunded == v.refunded
      && (v.escrow.value <= 0 ==> (forall e :: e in v.entries ==> v'.entries[e].prize == v.entries[e].prize))
      && (if v.escrow.value > 0 && ranked != [] then !v.settled && v'.settled && v'.escrow.value == 0
          else v'.settled == v.settled && v'.escrow == v.escrow)
  }

  function ContestOf(w: World, s: Step): Uuid {
    match s
    case CreateContest(c, _, _, _) => c
    case PublishStep(c) => c
    case SubmitStep(c, _, _, _) => c
    case LockStep(c) => c
    case ScoringStep(c) => c
    case ScoredStep(c) => c
    case CommitCancel(op) => if op in w.pending then w.pending[op].contest else 0
    case CommitSettle(op) => if op in w.pending then w.pending[op].contest else 0
    case _ => 0
  }

  ghost function ChangeOf(w: World, s: Step): Change {
    match s
    case CreateContest(c, fee, bps, template) =>
      if c in w.contests then Unchanged else Created(Contest(Draft, fee, bps, template))
    case PublishStep(c) => if c !in w.contests || Exists(w, ContestEscrow(c)) then Unchanged else Opened
    case LockStep(c) => if Next(w, s) == w then Unchanged else Moved(Published, Locked)
    case ScoringStep(c) => if Next(w, s) == w then Unchanged else Moved(Locked, Scoring)
    case ScoredStep(c) => if Next(w, s) == w then Unchanged else Moved(Scoring, Scored)
    case SubmitStep(c, u, client, e) =>
      if Next(w, s) == w then Unchanged
      else Entered(e, Entry(c, u, ACTIVE, !KeyUsed(w.books.journal, EntryKey(client)), 0, None))
    case CommitCancel(op) =>
      if op in w.pending && w.pending[op].CancelSnapshot? && Cancel(w, w.pending[op]).Some?
      then Called(w.pending[op].entries, w.pending[op].escrowSeen) else Unchanged
    case CommitSettle(op) =>
      if op in w.pending && w.pending[op].SettleSnapshot? && Settle(w, w.pending[op]).Some?
      then PaidRanking(w.pending[op].ranked) else Unchanged
    case _ => Unchanged
  }

  /** What `Next` does, contest by contest. */
  ghost predicate Shape(w: World, s: Step) {
    var w', c := Next(w, s), ContestOf(w, s);
    Base(w') && OthersSame(w, w', c) && Changes(ViewOf(w, c), ViewOf(w', c), ChangeOf(w, s))
  }

  lemma ForeignPostFrame(w: World, key: Key, lines: seq<Line>)
    requires Base(w) && ForeignPosting(key, lines)
    ensures var w' := w.(books := Post(w.books, key, lines).0);
            && Base(w') && forall d :: ViewOf(w', d) == ViewOf(w, d)
  {
    var b, b' := w.books, Post(w.books, key, lines).0;
    var w' := w.(books := b');
    PostKeepsValid(b, key, lines);
    if Post(b, key, lines).1.Posted? {
      PostedBalances(b, key, lines);
      KeysAfter(b.journal, JournalEntry(key, lines));
      forall d ensures EscrowIn(b', d) == EscrowIn(b, d) {
        UntouchedLines(lines, ContestEscrow(d));
      }
      BooksOnlyFrame(w, w');
    }
  }

  lemma BooksOnlyFrame(w: World, w': World)
    requires Base(w) && w' == w.(books := w'.books) && Valid(w'.books)
    requires w.books.balances.Keys <= w'.books.balances.Keys
    requires forall d :: EscrowIn(w'.books, d) == EscrowIn(w.books, d)
    requires forall k: Key :: k.RefundKey? || k.SettlementKey? ==> (KeyUsed(w'.books.journal, k) <==>
             KeyUsed(w.books.journal, k))
    ensures Base(w') && forall d :: ViewOf(w', d) == ViewOf(w, d)
  {
  }

  lemma PendingOnlyFrame(w: World, w': World)
    requires Base(w) && w' == w.(pending := w'.pending)
    requires forall op :: op in w'.pending ==> GoodSnapshot(w, w'.pending[op])
    ensures Base(w') && forall d :: ViewOf(w', d) == ViewOf(w, d)
  {
  }

  lemma ContestRowFrame(w: World, w': World, c: Uuid)
    requires Base(w) && w' == w.(contests := w'.contests) && w.contests.Keys <= w'.contests.Keys
    requires forall d :: d != c ==>
               (d in w'.contests <==> d in w.contests) && (d in w.contests ==> w'.contests[d] == w.contests[d])
    ensures Base(w') && OthersSame(w, w', c)
    ensures ViewOf(w', c) == ViewOf(w, c).(contest := if c in w'.contests then Some(w'.contests[c]) else None)
  {
    assert WorldFrame(w, w', c);
    FrameOthers(w, w', c);
    FrameBase(w, w', c);
    assert ViewOf(w', c).refunded == ViewOf(w, c).refunded;
    assert ViewOf(w', c).entries == ViewOf(w, c).entries;
  }

  lemma PublishShape(w: World, c: Uuid)
    requires Base(w)
    ensures Shape(w, PublishStep(c))
  {
    if c in w.contests && !Exists(w, ContestEscrow(c)) {
      var w1 := SetStatus(w, c, Published);
      ContestRowFrame(w, w1, c);
      var w' := Next(w, PublishStep(c));
      OpenKeepsValid(w.books, ContestEscrow(c));
      assert WorldFrame(w, w', c);
      FrameOthers(w, w', c);
      FrameBase(w, w', c);
      assert ViewOf(w', c).refunded == ViewOf(w, c).refunded;
      assert ViewOf(w', c).entries == ViewOf(w, c).entries;
    }
  }

  lemma ShapeOf(w: World, s: Step, w': World, c: Uuid, ch: Change)
    requires Next(w, s) == w' && ContestOf(w, s) == c && ChangeOf(w, s) == ch
    requires Base(w) && Base(w') && WorldFrame(w, w', c) && Changes(ViewOf(w, c), ViewOf(w', c), ch)
    ensures Shape(w, s)
  {
    FrameOthers(w, w', c);
  }

  lemma SubmitChanges(w: World, c: Uuid, u: Uuid, client: Uuid, e: Uuid)
    requires Base(w) && Submit(w, c, u, client, e) != w
    ensures Changes(ViewOf(w, c), ViewOf(Submit(w, c, u, client, e), c),
                    Entered(e, Entry(c, u, ACTIVE, !KeyUsed(w.books.journal, EntryKey(client)), 0, None)))
  {
    SubmitView(w, c, u, client, e);
  }

  lemma SubmitShape(w: World, c: Uuid, u: Uuid, client: Uuid, e: Uuid)
    requires Base(w)
    ensures Shape(w, SubmitStep(c, u, client, e))
  {
    var s, w' := SubmitStep(c, u, client, e), Submit(w, c, u, client, e);
    assert Next(w, s) == w';
    if w' != w {
      SubmitFrame(w, c, u, client, e);
      SubmitChanges(w, c, u, client, e);
      ShapeOf(w, s, w', c, ChangeOf(w, s));
    }
  }

  lemma UnrefundedInView(w: World, c: Uuid, ids: seq<Uuid>)
    requires forall id :: id in ids ==> id in w.entries && w.entries[id].contest == c
    ensures Unrefunded(w.books, ids) == Elements(ids) - ViewOf(w, c).refunded
  {
  }

  lemma CancelShape(w: World, op: Uuid)
    requires Base(w)
    ensures Shape(w, CommitCancel(op))
  {
    if op in w.pending && w.pending[op].CancelSnapshot? {
      var snap := w.pending[op];
      assert GoodSnapshot(w, snap);
      var r := Cancel(w, snap);
      var w1 := if r.Some? then r.value else w;
      if r.Some? {
        CancelFrame(w, snap);
        CancelView(w, snap);
        FrameOthers(w, w1, snap.contest);
        UnrefundedInView(w, snap.contest, snap.entries);
      }
      PendingOnlyFrame(w1, Next(w, CommitCancel(op)));
    }
  }

  lemma SettleShape(w: World, op: Uuid)
    requires Base(w)
    ensures Shape(w, CommitSettle(op))
  {
    if op in w.pending && w.pending[op].SettleSnapshot? {
      var snap := w.pending[op];
      assert GoodSnapshot(w, snap);
      var r := Settle(w, snap);
      var w1 := if r.Some? then r.value else w;
      if r.Some? {
        SettleFrame(w, snap);
        SettleEffect(w, snap);
        FrameOthers(w, w1, snap.contest);
      }
      PendingOnlyFrame(w1, Next(w, CommitSettle(op)));
    }
  }

  lemma ReadShape(w: World, s: Step)
    requires Inv(w) && (s.ReadCancel? || s.ReadSettle?)
    ensures Shape(w, s) && Base(Next(w, s)) && forall d :: ViewOf(Next(w, s), d) == ViewOf(w, d)
  {
    var w' := Next(w, s);
    if s.ReadCancel? && w' != w {
      assert GoodView(ViewOf(w, s.c));
      if !Exists(w, ContestEscrow(s.c)) && s.order != [] {
        assert s.order[0] in s.order;
        assert s.order[0] in ViewOf(w, s.c).entries;
      }
    }
    PendingOnlyFrame(w, w');
  }

  lemma RowShape(w: World, s: Step)
    requires Base(w) && (s.CreateContest? || s.LockStep? || s.ScoringStep? || s.ScoredStep?)
    ensures Shape(w, s)
  {
    if Next(w, s) != w { ContestRowFrame(w, Next(w, s), ContestOf(w, s)); }
  }

  lemma OpenShape(w: World, a: AccountId)
    requires Base(w)
    ensures Shape(w, OpenAccountStep(a))
  {
    if !a.ContestEscrow? {
      OpenKeepsValid(w.books, a);
      BooksOnlyFrame(w, Next(w, OpenAccountStep(a)));
    }
  }

  lemma ElsewhereShape(w: World, key: Key, lines: seq<Line>)
    requires Base(w)
    ensures Shape(w, Elsewhere(key, lines))
  {
    if ForeignPosting(key, lines) { ForeignPostFrame(w, key, lines); }
  }

  lemma StepShape(w: World, s: Step)
    requires Inv(w)
    ensures Shape(w, s)
  {
    match s
    case OpenAccountStep(a) => OpenShape(w, a);
    case Elsewhere(key, lines) => ElsewhereShape(w, key, lines);
    case PublishStep(c) => PublishShape(w, c);
    case SubmitStep(c, u, client, e) => SubmitShape(w, c, u, client, e);
    case CommitCancel(op) => CancelShape(w, op);
    case CommitSettle(op) => SettleShape(w, op);
    case ReadCancel(_, _, _) => ReadShape(w, s);
    case ReadSettle(_, _, _) => ReadShape(w, s);
    case _ => RowShape(w, s);
  }

  // ---------------------------------------------------------------- every run

  lemma ChargedAfterEntry(entries: map<Uuid, Entry>, e: Uuid, x: Entry)
    requires e !in entries && x.status == ACTIVE
    ensures |ChargedActive(entries[e := x])| == |ChargedActive(entries)| + if x.charged then 1 else 0
  {
    if x.charged {
      assert ChargedActive(entries[e := x]) == ChargedActive(entries) + {e};
    } else {
      assert ChargedActive(entries[e := x]) == ChargedActive(entries);
    }
  }

  lemma EntryKeepsGood(v: View, v': View, e: Uuid, x: Entry)
    requires GoodView(v) && Changes(v, v', Entered(e, x))
    ensures GoodView(v')
  {
    ChargedAfterEntry(v.entries, e, x);
    FeeTimes(v.contest.value.fee, |ChargedActive(v'.entries)|);
  }

  lemma CallKeepsGood(v: View, v': View, ids: seq<Uuid>, seen: bool)
    requires GoodView(v) && Changes(v, v', Called(ids, seen))
    ensures GoodView(v')
  {
    if !seen {
      assert Elements(ids) - v.refunded == {};
      assert MarkRefunded(v.entries, ids) == v.entries;
    } else {
      FeeTimes(v.contest.value.fee, |ChargedActive(v'.entries)|);
    }
  }

  lemma PayKeepsGood(v: View, v': View, ranked: seq<Uuid>)
    requires GoodView(v) && Changes(v, v', PaidRanking(ranked))
    ensures GoodView(v')
  {
    if ranked == [] { assert v'.entries == v.entries; }
    FeeTimes(v.contest.value.fee, |ChargedActive(v'.entries)|);
  }

  lemma ChangeKeepsGood(v: View, v': View, ch: Change)
    requires GoodView(v) && Changes(v, v', ch)
    ensures GoodView(v')
  {
    match ch
    case Entered(e, x) => EntryKeepsGood(v, v', e, x);
    case Called(ids, seen) => CallKeepsGood(v, v', ids, seen);
    case PaidRanking(ranked) => PayKeepsGood(v, v', ranked);
    case _ =>
  }

  lemma StepKeepsInv(w: World, s: Step)
    requires Inv(w)
    ensures Inv(Next(w, s))
  {
    var w', c := Next(w, s), ContestOf(w, s);
    StepShape(w, s);
    forall d ensures GoodView(ViewOf(w', d)) {
      assert GoodView(ViewOf(w, d));
      if d == c { ChangeKeepsGood(ViewOf(w, c), ViewOf(w', c), ChangeOf(w, s)); }
    }
  }

  lemma {:induction false} RunKeepsInv(w: World, steps: seq<Step>)
    requires Inv(w)
    ensures Inv(ContestMoney.Run(w, steps))
    decreases |steps|
  {
    if steps != [] {
      StepKeepsInv(w, steps[0]);
      RunKeepsInv(Next(w, steps[0]), steps[1..]);
    }
  }

  lemma StartInv()
    ensures Inv(START)
  {
  }

  /** In every run, however stale the guards: the books balance, and an escrow never holds more
      than the entry fee times the number of active entries. */
  lemma EscrowBounded(steps: seq<Step>, c: Uuid)
    ensures var w := ContestMoney.Run(START, steps);
            && Valid(w.books)
            && (Exists(w, ContestEscrow(c)) ==>
                  && c in w.contests
                  && 0 <= w.books.balances[ContestEscrow(c)] <= w.contests[c].fee * |Active(ViewOf(w, c).entries)|)
  {
    StartInv();
    RunKeepsInv(START, steps);
    var w := ContestMoney.Run(START, steps);
    var v := ViewOf(w, c);
    assert GoodView(v);
    if v.escrow.Some? {
      ChargedAtMostActive(v.entries);
      MultiplyMonotone(v.contest.value.fee, |ChargedActive(v.entries)|, |Active(v.entries)|);
    }
  }

  // ---------------------------------------------------------------- one entry per user

  ghost predicate OneEntryPerUser(entries: map<Uuid, Entry>) {
    forall e1, e2 ::
      && e1 in entries && e2 in entries
      && entries[e1].contest == entries[e2].contest && entries[e1].user == entries[e2].user
      ==> e1 == e2
  }

  lemma SameOwnersStayUnique(entries: map<Uuid, Entry>, entries': map<Uuid, Entry>)
    requires OneEntryPerUser(entries) && entries'.Keys == entries.Keys
    requires forall e ::
             e in entries ==> entries'[e].contest == entries[e].contest && entries'[e].user == entries[e].user
    ensures OneEntryPerUser(entries')
  {
  }

  lemma StepKeepsUnique(w: World, s: Step)
    requires OneEntryPerUser(w.entries)
    ensures OneEntryPerUser(Next(w, s).entries)
  {
    match s
    case SubmitStep(c, u, client, e) =>
    case CommitCancel(op) =>
      if op in w.pending && w.pending[op].CancelSnapshot? && Cancel(w, w.pending[op]).Some? {
        SameOwnersStayUnique(w.entries, Cancel(w, w.pending[op]).value.entries);
      }
    case CommitSettle(op) =>
      if op in w.pending && w.pending[op].SettleSnapshot? && Settle(w, w.pending[op]).Some? {
        SettleEntries(w, w.pending[op]);
        SameOwnersStayUnique(w.entries, Settle(w, w.pending[op]).value.entries);
      }
    case _ =>
  }

  /** In every run a user has at most one entry in a contest. */
  lemma {:induction false} RunKeepsUnique(w: World, steps: seq<Step>)
    requires OneEntryPerUser(w.entries)
    ensures OneEntryPerUser(ContestMoney.Run(w, steps).entries)
    decreases |steps|
  {
    if steps != [] {
      StepKeepsUnique(w, steps[0]);
      RunKeepsUnique(Next(w, steps[0]), steps[1..]);
    }
  }

  lemma {:induction false} WritePrizesInOrder(entries: map<Uuid, Entry>, ranked: seq<Uuid>, prizes: seq<int>)
    requires |prizes| <= |ranked| && Distinct(ranked) && forall id :: id in ranked ==> id in entries
    ensures forall i :: 0 <= i < |prizes| ==>
            ranked[i] in entries && WritePrizes(entries, ranked, prizes)[ranked[i]].prize == prizes[i]
    decreases |prizes|
  {
    if prizes != [] {
      WritePrizesInOrder(entries, ranked, prizes[..|prizes| - 1]);
      forall i | 0 <= i < |prizes| ensures ranked[i] in entries { assert ranked[i] in ranked; }
    }
  }
}
