/**
 The contest services as they run: rows are updated in place, statement by statement, and an abort
 restores what the transaction had changed. Each method is proved against the commit it performs.
 */
module ContestService {
  import opened Ledger
  import opened Ranking
  import opened ContestMoney
  import opened ContestTransfers

  lemma MarkOne(entries: map<Uuid, Entry>, ids: seq<Uuid>, i: nat)
    requires i < |ids| && ids[i] in entries
    ensures var es := MarkRefunded(entries, ids[..i]);
            es[ids[i] := es[ids[i]].(status := REFUNDED)] == MarkRefunded(entries, ids[..i + 1])
  {
  }

  /** The rows after the first `k` ranks were written. */
  function RanksUpTo(entries: map<Uuid, Entry>, ranked: seq<Uuid>, k: nat): (es: map<Uuid, Entry>)
    requires k <= |ranked| && forall id :: id in ranked ==> id in entries
    ensures es.Keys == entries.Keys
  {
    WriteRanks(entries, ranked[..k])
  }

  lemma RankOne(entries: map<Uuid, Entry>, ranked: seq<Uuid>, k: nat)
    requires k < |ranked| && forall id :: id in ranked ==> id in entries
    ensures ranked[k] in entries
    ensures var es := RanksUpTo(entries, ranked, k);
            RanksUpTo(entries, ranked, k + 1) ==
              es[ranked[k] := es[ranked[k]].(status := SETTLED, finalRank := Some(k + 1))]
  {
    assert ranked[k] in ranked;
    assert ranked[..k + 1][..k] == ranked[..k];
  }

  class Service {
    const ledger: LedgerService
    var contests: map<Uuid, Contest>
    var entries: map<Uuid, Entry>

    ghost function State(): World
      reads this, ledger
    {
      World(ledger.State(), contests, entries, map[])
    }

    constructor (ledger: LedgerService)
      ensures this.ledger == ledger && contests == map[] && entries == map[]
    {
      this.ledger := ledger;
      contests, entries := map[], map[];
    }

    /** Sets the status and creates the escrow; a second escrow aborts the whole. */
    method PublishContest(c: Uuid)
      modifies this, ledger
      ensures State() == Publish(old(State()), c)
    {
      if c !in contests {
        return;
      }
      var saved := contests;
      contests := contests[c := contests[c].(status := Published)];
      var created := ledger.OpenAccount(ContestEscrow(c));
      if !created {
        contests := saved;
      }
    }

    /** A conditional update; true when the contest moved, which is when an event is emitted. */
    method AdvanceContest(c: Uuid, from: Status, to: Status) returns (moved: bool)
      modifies this
      ensures State() == Advance(old(State()), c, from, to)
      ensures moved <==> c in old(contests) && old(contests)[c].status == from
    {
      moved := c in contests && contests[c].status == from;
      if moved { contests := contests[c := contests[c].(status := to)]; }
    }

    method SubmitSlip(c: Uuid, u: Uuid, client: Uuid, e: Uuid) returns (accepted: bool)
      requires e !in entries
      modifies this, ledger
      ensures State() == Submit(old(State()), c, u, client, e)
      ensures accepted <==> e in entries
    {
      if c !in contests || UserAvailable(u) !in ledger.balances || ContestEscrow(c) !in ledger.balances {
        return false;
      }
      var savedBalances, savedJournal := ledger.balances, ledger.journal;
      var r := ledger.PostJournal(EntryKey(client), Transfer(UserAvailable(u), ContestEscrow(c), contests[c].fee));
      if r.Rejected? {
        return false;
      }
      if exists x :: x in entries && entries[x].contest == c && entries[x].user == u {
        ledger.balances, ledger.journal := savedBalances, savedJournal;
        return false;
      }
      entries := entries[e := Entry(c, u, ACTIVE, r.Posted?, 0, None)];
      return true;
    }

    /** Refunds the snapshot's entries one by one, checks the escrow, then closes the contest. */
    method CancelContest(snap: Snapshot) returns (committed: bool)
      requires snap.CancelSnapshot?
      modifies this, ledger
      ensures var r := Cancel(old(State()), snap);
              committed == r.Some? && State() == (if r.Some? then r.value else old(State()))
      ensures committed && snap.contest in old(contests) && Valid(old(ledger.State()))
              && ContestEscrow(snap.contest) in old(ledger.balances) ==>
                WalletsRefunded(old(ledger.State()), ledger.State(), old(entries), snap.contest,
                                old(contests)[snap.contest].fee, snap.entries)
    {
      var c := snap.contest;
      if c !in contests || (!snap.escrowSeen && snap.entries != []) {
        return false;
      }
      var fee := contests[c].fee;
      var savedBalances, savedJournal, savedEntries := ledger.balances, ledger.journal, entries;
      ghost var before := ledger.State();
      var i := 0;
      while i < |snap.entries|
        invariant 0 <= i <= |snap.entries| && contests == old(contests)
        invariant RefundAll(before, c, fee, savedEntries, snap.entries) ==
                  RefundAll(ledger.State(), c, fee, savedEntries, snap.entries[i..])
        invariant entries == MarkRefunded(savedEntries, snap.entries[..i])
      {
        var id := snap.entries[i];
        assert snap.entries[i..][0] == id && snap.entries[i..][1..] == snap.entries[i + 1..];
        if id !in entries || UserAvailable(entries[id].user) !in ledger.balances {
          ledger.balances, ledger.journal, entries := savedBalances, savedJournal, savedEntries;
          return false;
        }
        var r := ledger.PostJournal(RefundKey(id), Transfer(ContestEscrow(c), UserAvailable(entries[id].user), fee));
        if r.Rejected? {
          ledger.balances, ledger.journal, entries := savedBalances, savedJournal, savedEntries;
          return false;
        }
        MarkOne(savedEntries, snap.entries, i);
        entries := entries[id := entries[id].(status := REFUNDED)];
        i := i + 1;
      }
      assert snap.entries[..i] == snap.entries;
      if snap.escrowSeen && (ContestEscrow(c) !in ledger.balances || ledger.balances[ContestEscrow(c)] != 0) {
        ledger.balances, ledger.journal, entries := savedBalances, savedJournal, savedEntries;
        return false;
      }
      if Valid(before) && ContestEscrow(c) in before.balances {
        RefundAllWallets(before, c, fee, savedEntries, snap.entries);
      }
      contests := contests[c := contests[c].(status := Cancelled)];
      return true;
    }

    /** Writes the prizes of the paid positions. */
    method WritePrizeRows(ranked: seq<Uuid>, prizes: seq<int>)
      requires |prizes| <= |ranked| && forall id :: id in ranked ==> id in entries
      modifies `entries
      ensures entries == WritePrizes(old(entries), ranked, prizes)
    {
      var i := 0;
      while i < |prizes|
        invariant 0 <= i <= |prizes|
        invariant entries == WritePrizes(old(entries), ranked, prizes[..i])
      {
        assert ranked[i] in ranked;
        assert prizes[..i + 1][..i] == prizes[..i];
        entries := entries[ranked[i] := entries[ranked[i]].(prize := prizes[i])];
        i := i + 1;
      }
      assert prizes[..i] == prizes;
    }

    /** One batched statement: the ranks of places `offset` up to `end`. */
    method WriteRankChunk(ghost before: map<Uuid, Entry>, ranked: seq<Uuid>, offset: nat, end: nat)
      requires offset <= end <= |ranked| && forall id :: id in ranked ==> id in before
      requires entries == RanksUpTo(before, ranked, offset)
      modifies `entries
      ensures entries == RanksUpTo(before, ranked, end)
    {
      var chunk := ranked[offset..end];
      var i := 0;
      while i < |chunk|
        invariant 0 <= i <= |chunk|
        invariant entries == RanksUpTo(before, ranked, offset + i)
      {
        RankOne(before, ranked, offset + i);
        entries := entries[chunk[i] := entries[chunk[i]].(status := SETTLED, finalRank := Some(offset + i + 1))];
        i := i + 1;
      }
    }

    /** Writes the final ranks in chunks; the chunk size does not show in the result. */
    method WriteRankChunks(ranked: seq<Uuid>, chunkSize: nat)
      requires chunkSize > 0 && forall id :: id in ranked ==> id in entries
      modifies `entries
      ensures entries == WriteRanks(old(entries), ranked)
    {
      assert ranked[..0] == [];
      var offset := 0;
      while offset < |ranked|
        invariant 0 <= offset <= |ranked|
        invariant entries == RanksUpTo(old(entries), ranked, offset)
      {
        var end := Min(offset + chunkSize, |ranked|);
        WriteRankChunk(old(entries), ranked, offset, end);
        offset := end;
      }
      assert ranked[..offset] == ranked;
    }

    /** Computes the prizes for the escrow's balance and posts them; on any failure nothing stays. */
    method PayWinners(c: Uuid, users: seq<Uuid>) returns (prizes: Option<seq<int>>)
      requires c in contests && ContestEscrow(c) in ledger.balances && users != []
      modifies ledger
      ensures var p := PayOut(old(ledger.State()), c, contests[c], users);
              && prizes == (if p.Some? then Some(p.value.prizes) else None)
              && ledger.State() == (if p.Some? then p.value.books else old(ledger.State()))
    {
      var gross := ledger.balances[ContestEscrow(c)];
      var r := ComputePrizeAmounts(Pool(gross, contests[c].commissionBps), contests[c].template, |users|);
      if r.DivisionByZero? {
        return None;
      }
      PrizeCount(Pool(gross, contests[c].commissionBps), contests[c].template, |users|);
      if exists i :: 0 <= i < |r.amounts| && UserAvailable(users[i]) !in ledger.balances {
        return None;
      }
      var savedBalances, savedJournal := ledger.balances, ledger.journal;
      var winners := WinnerLines(r.amounts, users);
      var post := ledger.PostJournal(SettlementKey(c), SettlementLines(c, gross, gross - SumSeq(r.amounts), winners));
      if post.Rejected? {
        return None;
      }
      if ContestEscrow(c) !in ledger.balances || ledger.balances[ContestEscrow(c)] != 0 {
        ledger.balances, ledger.journal := savedBalances, savedJournal;
        return None;
      }
      return Some(r.amounts);
    }

    /** Ranks every entry of the ranking and settles the contest. */
    method CloseRanking(c: Uuid, ranked: seq<Uuid>)
      requires c in contests && forall id :: id in ranked ==> id in entries
      modifies `entries, `contests
      ensures entries == WriteRanks(old(entries), ranked)
      ensures contests == old(contests)[c := old(contests)[c].(status := Settled)]
    {
      WriteRankChunks(ranked, 10000);
      contests := contests[c := contests[c].(status := Settled)];
    }

    /** Pays the escrow out over the snapshot's ranking, then writes prizes and ranks. */
    method DistributePrizes(snap: Snapshot) returns (committed: bool)
      requires snap.SettleSnapshot?
      modifies this, ledger
      ensures var r := Settle(old(State()), snap);
              committed == r.Some? && State() == (if r.Some? then r.value else old(State()))
    {
      var c, ranked := snap.contest, snap.ranked;
      if c !in contests || ContestEscrow(c) !in ledger.balances || PlatformRevenue !in ledger.balances
         || exists id :: id in ranked && id !in entries {
        return false;
      }
      if ledger.balances[ContestEscrow(c)] > 0 && ranked != [] {
        var prizes := PayWinners(c, Users(entries, ranked));
        if prizes.None? {
          return false;
        }
        WritePrizeRows(ranked, prizes.value);
        CloseRanking(c, ranked);
      } else {
        CloseRanking(c, ranked);
      }
      return true;
    }
  }
}
