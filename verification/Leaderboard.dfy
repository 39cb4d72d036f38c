/** The leaderboard's two orders: live, by the comparator; settled, by the stored rank. */
module Leaderboard {
  import opened Ledger
  import opened Ranking
  import opened ContestMoney
  import opened ContestTransfers
  import opened ContestSafety
  import opened ContestClosing
  import opened ContestGuarantees

  /** Entries without a stored rank sort first. */
  function StoredRank(e: Entry): nat { if e.finalRank.Some? then e.finalRank.value else 0 }

  predicate SortedByStoredRank(entries: map<Uuid, Entry>, out: seq<Uuid>)
    requires forall id :: id in out ==> id in entries
  {
    forall i, j :: 0 <= i < j < |out| ==> StoredRank(entries[out[i]]) <= StoredRank(entries[out[j]])
  }

  predicate IsShown(w: World, c: Uuid, e: Uuid) {
    e in w.entries && w.entries[e].contest == c && w.entries[e].status in {ACTIVE, SETTLED}
  }

  /** The rows of a contest's leaderboard, each once. */
  ghost predicate Shows(w: World, c: Uuid, ids: seq<Uuid>) {
    && Distinct(ids)
    && (forall e :: e in ids ==> IsShown(w, c, e))
    && (forall e :: IsShown(w, c, e) ==> e in ids)
  }

  // ---------------------------------------------------------------- sorting by stored rank

  /** A list of the ranked rows and of others without a rank, in order of rank. */
  ghost predicate ByRank(ranked: seq<Uuid>, late: set<Uuid>, out: seq<Uuid>, rank: Uuid -> nat) {
    && Distinct(out) && Elements(out) == late + Elements(ranked)
    && (forall i :: 0 <= i < |ranked| ==> rank(ranked[i]) == i + 1)
    && (forall x :: x in late ==> rank(x) == 0)
    && (forall i, j :: 0 <= i < j < |out| ==> rank(out[i]) <= rank(out[j]))
  }

  lemma LastPlace(ranked: seq<Uuid>, late: set<Uuid>, out: seq<Uuid>, rank: Uuid -> nat)
    requires ranked != [] && ByRank(ranked, late, out, rank)
    ensures out != [] && out[|out| - 1] == ranked[|ranked| - 1]
  {
    var n := |ranked| - 1;
    assert ranked[n] in Elements(out);
    var k :| 0 <= k < |out| && out[k] == ranked[n];
    var top := out[|out| - 1];
    assert rank(ranked[n]) <= rank(top);
    assert top in Elements(out) && top in ranked;
    var m :| 0 <= m < |ranked| && ranked[m] == top;
  }

  lemma DropLast(ranked: seq<Uuid>, late: set<Uuid>, out: seq<Uuid>, rank: Uuid -> nat)
    requires ranked != [] && ByRank(ranked, late, out, rank) && out != [] && out[|out| - 1] == ranked[|ranked| - 1]
    ensures ByRank(ranked[..|ranked| - 1], late, out[..|out| - 1], rank)
  {
    var n, m := |ranked| - 1, |out| - 1;
    forall x ensures x in Elements(out[..m]) <==> x in late + Elements(ranked[..n]) {
      assert x in Elements(out) <==> x in late || x in Elements(ranked);
      InitOrLast(ranked, x);
      InitOrLast(out, x);
      if x in ranked[..n] { RankedOnce(ranked, rank, x); }
    }
  }

  lemma RankedOnce(ranked: seq<Uuid>, rank: Uuid -> nat, x: Uuid)
    requires ranked != [] && (forall i :: 0 <= i < |ranked| ==> rank(ranked[i]) == i + 1) && x in ranked[..|ranked| - 1]
    ensures x != ranked[|ranked| - 1]
  {
    var i :| 0 <= i < |ranked| - 1 && ranked[i] == x;
  }

  /** The list ends with the ranking, and the rest is the others. */
  ghost predicate EndsWith(ranked: seq<Uuid>, late: set<Uuid>, out: seq<Uuid>) {
    |ranked| <= |out| && out[|out| - |ranked|..] == ranked && Elements(out[..|out| - |ranked|]) == late
  }

  lemma AddLast(ranked: seq<Uuid>, late: set<Uuid>, out: seq<Uuid>)
    requires ranked != [] && out != [] && out[|out| - 1] == ranked[|ranked| - 1]
    requires EndsWith(ranked[..|ranked| - 1], late, out[..|out| - 1])
    ensures EndsWith(ranked, late, out)
  {
    var n, k := |ranked| - 1, |out| - |ranked|;
    forall i | 0 <= i < n ensures out[k + i] == ranked[i] { assert out[..|out| - 1][k..][i] == ranked[..n][i]; }
    assert out[..|out| - 1][..k] == out[..k];
  }

  /** Sorting puts the rows without a rank first, and then the ranking. */
  lemma {:induction false} RanksDeterminePlaces(ranked: seq<Uuid>, late: set<Uuid>, out: seq<Uuid>, rank: Uuid -> nat)
    requires ByRank(ranked, late, out, rank)
    ensures EndsWith(ranked, late, out)
    decreases |ranked|
  {
    if ranked == [] {
      assert out[..|out|] == out;
    } else {
      LastPlace(ranked, late, out, rank);
      DropLast(ranked, late, out, rank);
      RanksDeterminePlaces(ranked[..|ranked| - 1], late, out[..|out| - 1], rank);
      AddLast(ranked, late, out);
    }
  }

  // ---------------------------------------------------------------- only settled rows have a rank

  ghost predicate Unranked(entries: map<Uuid, Entry>) {
    forall e :: e in entries && entries[e].status == ACTIVE ==> entries[e].finalRank.None?
  }

  lemma StepKeepsUnranked(w: World, s: Step)
    requires Unranked(w.entries)
    ensures Unranked(Next(w, s).entries)
  {
    if s.CommitSettle? && s.op in w.pending && w.pending[s.op].SettleSnapshot? && Settle(w, w.pending[s.op]).Some? {
      SettleEntries(w, w.pending[s.op]);
    }
  }

  lemma {:induction false} RunKeepsUnranked(w: World, steps: seq<Step>)
    requires Unranked(w.entries)
    ensures Unranked(ContestMoney.Run(w, steps).entries)
    decreases |steps|
  {
    if steps != [] {
      StepKeepsUnranked(w, steps[0]);
      RunKeepsUnranked(Next(w, steps[0]), steps[1..]);
    }
  }

  // ---------------------------------------------------------------- the settled leaderboard

  /** The first settlement of a contest, as the leaderboard needs it. */
  predicate Settles(w: World, op: Uuid) {
    && op in w.pending && w.pending[op].SettleSnapshot? && w.pending[op].contest in w.contests
    && IsOpen(w.contests[w.pending[op].contest].status) && Settle(w, w.pending[op]).Some?
  }

  /** Of the entries of an open contest exactly the ranked ones get a rank, each its place. */
  ghost predicate RanksExactly(w: World, w': World, c: Uuid, ranked: seq<Uuid>) {
    && w'.entries.Keys == w.entries.Keys
    && (forall e :: e in w.entries ==> w'.entries[e].contest == w.entries[e].contest)
    && (forall e :: e in ranked ==> e in w.entries && w.entries[e].contest == c)
    && (forall i :: 0 <= i < |ranked| ==> ranked[i] in w'.entries && w'.entries[ranked[i]].finalRank == Some(i + 1))
    && (forall e :: e in w.entries && w.entries[e].contest == c ==>
          && w.entries[e].status == ACTIVE && w'.entries[e].status in {ACTIVE, SETTLED}
          && (e !in ranked ==> w'.entries[e].finalRank.None?))
  }

  lemma RowsAfterSettlement(steps: seq<Step>, op: Uuid)
    requires Settles(ContestMoney.Run(START, steps), op)
    ensures var w := ContestMoney.Run(START, steps); var snap := w.pending[op];
            RanksExactly(w, Settle(w, snap).value, snap.contest, snap.ranked)
  {
    OpenRun(steps);
    RunKeepsUnranked(START, steps);
    SettleCommitsIff(steps, op);
    var w := ContestMoney.Run(START, steps);
    var snap := w.pending[op];
    assert GoodSnapshot(w, snap) && SnapshotOk(w, op) && OpenView(ViewOf(w, snap.contest));
    SettleEntries(w, snap);
    forall e | e in w.entries && w.entries[e].contest == snap.contest ensures w.entries[e].status == ACTIVE {
      assert e in ViewOf(w, snap.contest).entries && ViewOf(w, snap.contest).entries[e] == w.entries[e];
    }
  }

  lemma OthersFirst(out: seq<Uuid>, ranked: seq<Uuid>, es: map<Uuid, Entry>)
    requires Distinct(out) && (forall e :: e in ranked ==> e in out) && (forall e :: e in out ==> e in es)
    requires forall i :: 0 <= i < |ranked| ==> ranked[i] in es && es[ranked[i]].finalRank == Some(i + 1)
    requires forall e :: e in out && e !in ranked ==> es[e].finalRank.None?
    requires SortedByStoredRank(es, out)
    ensures |ranked| <= |out| && out[|out| - |ranked|..] == ranked
    ensures forall e :: e in out[..|out| - |ranked|] <==> e in out && e !in ranked
  {
    var late, rank := Elements(out) - Elements(ranked), (id: Uuid) => if id in es then StoredRank(es[id]) else 0;
    assert ByRank(ranked, late, out, rank);
    RanksDeterminePlaces(ranked, late, out, rank);
    forall e ensures e in out[..|out| - |ranked|] <==> e in out && e !in ranked {
      assert e in out[..|out| - |ranked|] <==> e in Elements(out[..|out| - |ranked|]);
    }
  }

  /** The entries that are not ranked, in some order, and then the ranking; just the ranking if and only if
      it has every entry. */
  ghost predicate LateThenRanked(w: World, c: Uuid, ranked: seq<Uuid>, out: seq<Uuid>) {
    && |ranked| <= |out| && out[|out| - |ranked|..] == ranked
    && (forall e :: e in out[..|out| - |ranked|] <==> e in w.entries && w.entries[e].contest == c && e !in ranked)
    && (out == ranked <==> forall e :: e in w.entries && w.entries[e].contest == c ==> e in ranked)
  }

  /** After the first settlement the leaderboard shows the ranking, behind the entries that came too late for
      it, if there are any. */
  lemma SettledOrderIsTheRanking(steps: seq<Step>, op: Uuid, out: seq<Uuid>)
    requires Settles(ContestMoney.Run(START, steps), op)
    requires var w := ContestMoney.Run(START, steps); var w' := Settle(w, w.pending[op]).value;
             Shows(w', w.pending[op].contest, out) && SortedByStoredRank(w'.entries, out)
    ensures var w := ContestMoney.Run(START, steps);
            LateThenRanked(w, w.pending[op].contest, w.pending[op].ranked, out)
  {
    RowsAfterSettlement(steps, op);
    var w := ContestMoney.Run(START, steps);
    ShownAfter(w, Settle(w, w.pending[op]).value, w.pending[op].contest, w.pending[op].ranked, out);
  }

  lemma ShownAfter(w: World, w': World, c: Uuid, ranked: seq<Uuid>, out: seq<Uuid>)
    requires RanksExactly(w, w', c, ranked) && Shows(w', c, out) && SortedByStoredRank(w'.entries, out)
    ensures LateThenRanked(w, c, ranked, out)
  {
    ShownAreEntries(w, w', c, out);
    OthersFirst(out, ranked, w'.entries);
    WholeOrTail(out, ranked);
  }

  lemma ShownAreEntries(w: World, w': World, c: Uuid, out: seq<Uuid>)
    requires Shows(w', c, out) && w'.entries.Keys == w.entries.Keys
    requires forall e :: e in w.entries ==> w'.entries[e].contest == w.entries[e].contest
    requires forall e :: e in w.entries && w.entries[e].contest == c ==> w'.entries[e].status in {ACTIVE, SETTLED}
    ensures forall e :: e in out <==> e in w.entries && w.entries[e].contest == c
  {
  }

  lemma WholeOrTail(out: seq<Uuid>, ranked: seq<Uuid>)
    requires |ranked| <= |out| && out[|out| - |ranked|..] == ranked
    requires forall e :: e in out[..|out| - |ranked|] <==> e in out && e !in ranked
    ensures out == ranked <==> forall e :: e in out ==> e in ranked
  {
    var first := out[..|out| - |ranked|];
    if first != [] {
      assert first[0] in first && first[0] == out[0];
      assert out[0] in out && out[0] !in ranked;
    } else {
      assert out[0..] == out;
    }
  }

  // ---------------------------------------------------------------- the live leaderboard

  function Ids(rows: seq<Rankable>): (ids: seq<Uuid>)
    ensures |ids| == |rows|
  {
    seq(|rows|, i requires 0 <= i < |rows| => rows[i].entryId)
  }

  function Rows(row: Uuid -> Rankable, ids: seq<Uuid>): (rows: seq<Rankable>)
    ensures |rows| == |ids|
  {
    seq(|ids|, i requires 0 <= i < |ids| => row(ids[i]))
  }

  lemma RankedAreRead(row: Uuid -> Rankable, read: seq<Uuid>, ranking: seq<Rankable>, draw: Uuid -> int)
    requires (forall e :: row(e).entryId == e) && IsRanking(Rows(row, read), ranking, draw)
    ensures forall e :: e in read <==> e in Ids(ranking)
  {
    SameElements(ranking, Rows(row, read));
    forall e | e in read ensures e in Ids(ranking) {
      var i :| 0 <= i < |read| && read[i] == e;
      assert Rows(row, read)[i] in ranking;
      var k :| 0 <= k < |ranking| && ranking[k] == row(e);
      assert Ids(ranking)[k] == e;
    }
    forall e | e in Ids(ranking) ensures e in read {
      var k :| 0 <= k < |ranking| && Ids(ranking)[k] == e;
      assert ranking[k] in Rows(row, read);
      var i :| 0 <= i < |read| && Rows(row, read)[i] == ranking[k];
      assert read[i] == e;
    }
  }

  /** A listing without one of its entries. */
  lemma Remove(row: Uuid -> Rankable, s: seq<Uuid>, x: Uuid) returns (rest: seq<Uuid>)
    requires Distinct(s) && x in s
    ensures Distinct(rest) && |rest| == |s| - 1 && forall e :: e in rest <==> e in s && e != x
    ensures multiset(Rows(row, s)) == multiset(Rows(row, rest)) + multiset{row(x)}
  {
    var k :| 0 <= k < |s| && s[k] == x;
    rest := s[..k] + s[k + 1..];
    RowsWithout(row, s, k);
    forall e | e in s && e != x ensures e in rest {
      var i :| 0 <= i < |s| && s[i] == e;
      if i < k { assert rest[i] == e; } else { assert rest[i - 1] == e; }
    }
    forall i | 0 <= i < |rest| ensures rest[i] == s[if i < k then i else i + 1] {}
  }

  lemma RowsWithout(row: Uuid -> Rankable, s: seq<Uuid>, k: nat)
    requires k < |s|
    ensures multiset(Rows(row, s)) == multiset(Rows(row, s[..k] + s[k + 1..])) + multiset{row(s[k])}
  {
    var rows := Rows(row, s);
    assert rows == rows[..k] + [rows[k]] + rows[k + 1..];
    assert Rows(row, s[..k] + s[k + 1..]) == rows[..k] + rows[k + 1..];
  }

  lemma HasElement(s: seq<Uuid>)
    ensures s == [] || exists e :: e in s
  {
    if s != [] { assert s[0] in s; }
  }

  /** Two listings of the same entries have the same rows. */
  lemma {:induction false} SameRows(row: Uuid -> Rankable, xs: seq<Uuid>, ys: seq<Uuid>)
    requires Distinct(xs) && Distinct(ys) && forall e :: e in xs <==> e in ys
    ensures multiset(Rows(row, xs)) == multiset(Rows(row, ys))
    decreases |xs|
  {
    HasElement(ys);
    if xs != [] {
      assert xs[0] in xs;
      var xs' := Remove(row, xs, xs[0]);
      var ys' := Remove(row, ys, xs[0]);
      SameRows(row, xs', ys');
    }
  }

  /** And so the same ranking. */
  lemma SameRanking(row: Uuid -> Rankable, draw: Uuid -> int, listed: seq<Uuid>, live: seq<Rankable>, read: seq<Uuid>,
                    ranking: seq<Rankable>)
    requires Distinct(listed) && Distinct(read) && (forall e :: e in listed <==> e in read)
    requires DistinctDraws(Rows(row, listed), draw)
    requires IsRanking(Rows(row, listed), live, draw) && IsRanking(Rows(row, read), ranking, draw)
    ensures live == ranking
  {
    SameRows(row, listed, read);
    RankingUnique(Rows(row, listed), Rows(row, read), live, ranking, draw);
  }

  /** The leaderboard lists a contest's rows in any order; before settlement it ranks them. If nobody came
      too late for the settlement, what it ranks live and what it shows afterwards are the same list. */
  lemma LiveOrderIsSettledOrder(steps: seq<Step>, op: Uuid, row: Uuid -> Rankable, draw: Uuid -> int,
                                listed: seq<Uuid>, live: seq<Rankable>, read: seq<Uuid>, ranking: seq<Rankable>,
                                out: seq<Uuid>)
    requires (forall e :: row(e).entryId == e) && DistinctDraws(Rows(row, listed), draw)
    requires IsRanking(Rows(row, listed), live, draw)
    requires Distinct(read) && IsRanking(Rows(row, read), ranking, draw)
    requires Settles(ContestMoney.Run(START, steps), op)
    requires var w := ContestMoney.Run(START, steps);
             && Shows(w, w.pending[op].contest, listed) && w.pending[op].ranked == Ids(ranking)
             && forall e :: e in w.entries && w.entries[e].contest == w.pending[op].contest ==>
                  e in w.pending[op].ranked
    requires var w := ContestMoney.Run(START, steps); var w' := Settle(w, w.pending[op]).value;
             Shows(w', w.pending[op].contest, out) && SortedByStoredRank(w'.entries, out)
    ensures out == Ids(live)
  {
    SettledOrderIsTheRanking(steps, op, out);
    RowsAfterSettlement(steps, op);
    var w := ContestMoney.Run(START, steps);
    RankedAreRead(row, read, ranking, draw);
    ShownAreEntries(w, w, w.pending[op].contest, listed);
    SameRanking(row, draw, listed, live, read, ranking);
  }

  // ---------------------------------------------------------------- who gets which rank

  /** Places in a ranking follow the comparison of the rows. */
  lemma PlacesFollowRows(row: Uuid -> Rankable, draw: Uuid -> int, read: seq<Uuid>, ranking: seq<Rankable>,
                         i: nat, j: nat)
    requires (forall e :: row(e).entryId == e) && IsRanking(Rows(row, read), ranking, draw)
    requires DistinctDraws(Rows(row, read), draw)
    requires i < |ranking| && j < |ranking| && Ids(ranking)[i] != Ids(ranking)[j]
    ensures i < j <==> Outranks(row(Ids(ranking)[i]), row(Ids(ranking)[j]), draw)
  {
    RowsAreRanked(row, read, ranking, draw, i);
    RowsAreRanked(row, read, ranking, draw, j);
    RankingIff(Rows(row, read), ranking, draw);
    assert draw(ranking[i].entryId) != draw(ranking[j].entryId);
  }

  lemma RowsAreRanked(row: Uuid -> Rankable, read: seq<Uuid>, ranking: seq<Rankable>, draw: Uuid -> int, i: nat)
    requires (forall e :: row(e).entryId == e) && IsRanking(Rows(row, read), ranking, draw) && i < |ranking|
    ensures ranking[i] == row(Ids(ranking)[i]) && ranking[i] in Rows(row, read)
  {
    SameElements(ranking, Rows(row, read));
    assert ranking[i] in ranking;
    var k :| 0 <= k < |read| && Rows(row, read)[k] == ranking[i];
  }

  /** After the first settlement of a contest, of two ranked entries the one with more points has the smaller
      final rank; on equal points the one with more correct expert picks; and so on down to the draw. */
  lemma BetterEntriesRankFirst(steps: seq<Step>, op: Uuid, row: Uuid -> Rankable, draw: Uuid -> int, read: seq<Uuid>,
                               ranking: seq<Rankable>, e1: Uuid, e2: Uuid)
    requires (forall e :: row(e).entryId == e) && IsRanking(Rows(row, read), ranking, draw)
    requires DistinctDraws(Rows(row, read), draw)
    requires Settles(ContestMoney.Run(START, steps), op)
    requires var w := ContestMoney.Run(START, steps);
             w.pending[op].ranked == Ids(ranking) && e1 in Ids(ranking) && e2 in Ids(ranking) && e1 != e2
    ensures var w := ContestMoney.Run(START, steps); var es := Settle(w, w.pending[op]).value.entries;
            && e1 in es && e2 in es && es[e1].finalRank.Some? && es[e2].finalRank.Some?
            && (es[e1].finalRank.value < es[e2].finalRank.value <==> Outranks(row(e1), row(e2), draw))
            && (row(e1).totalPointsX10 > row(e2).totalPointsX10 ==> es[e1].finalRank.value < es[e2].finalRank.value)
  {
    RowsAfterSettlement(steps, op);
    var ids := Ids(ranking);
    var i :| 0 <= i < |ids| && ids[i] == e1;
    var j :| 0 <= j < |ids| && ids[j] == e2;
    PlacesFollowRows(row, draw, read, ranking, i, j);
  }
}
