/**
 Final ranking and prize amounts: the five-level comparator, the order it induces, and the
 integer split of a prize pool over a payout template.
 */
module Ranking {
  import opened Ledger

  // ---------------------------------------------------------------- comparator

  datatype Rankable = Rankable(entryId: Uuid, totalPointsX10: int, correctExpert: int, correctHard: int,
                               submittedAt: int)

  /** Draw hashes are hexadecimal texts; only their order matters, so they are integers here. */
  function CompareHashes(x: int, y: int): int {
    if x < y then -1 else if x > y then 1 else 0
  }

  /** Negative when `a` ranks before `b`. `draw` gives the draw hash of an entry. */
  function Compare(a: Rankable, b: Rankable, draw: Uuid -> int): int {
    if a.totalPointsX10 != b.totalPointsX10 then b.totalPointsX10 - a.totalPointsX10
    else if a.correctExpert != b.correctExpert then b.correctExpert - a.correctExpert
    else if a.correctHard != b.correctHard then b.correctHard - a.correctHard
    else if a.submittedAt - b.submittedAt != 0 then a.submittedAt - b.submittedAt
    else CompareHashes(draw(a.entryId), draw(b.entryId))
  }

  /** No two of the entries share a draw hash. */
  ghost predicate DistinctDraws(xs: seq<Rankable>, draw: Uuid -> int) {
    forall a, b :: a in xs && b in xs && draw(a.entryId) == draw(b.entryId) ==> a == b
  }

  /** On entries with distinct draws the comparator is a strict total order: no ties at all. */
  lemma ComparatorIsStrictTotalOrder(xs: seq<Rankable>, draw: Uuid -> int)
    requires DistinctDraws(xs, draw)
    ensures forall a, b :: a in xs && b in xs ==> (Compare(a, b, draw) == 0 <==> a == b)
    ensures forall a, b :: a in xs && b in xs ==> (Compare(a, b, draw) < 0 <==> Compare(b, a, draw) > 0)
    ensures forall a, b, c :: a in xs && b in xs && c in xs && Compare(a, b, draw) < 0 && Compare(b, c, draw) < 0
              ==> Compare(a, c, draw) < 0
  {
  }

  ghost predicate Sorted(xs: seq<Rankable>, draw: Uuid -> int) {
    forall i, j :: 0 <= i < j < |xs| ==> Compare(xs[i], xs[j], draw) <= 0
  }

  /** What a comparison sort of `xs` may return. */
  ghost predicate IsRanking(xs: seq<Rankable>, out: seq<Rankable>, draw: Uuid -> int) {
    multiset(out) == multiset(xs) && Sorted(out, draw)
  }

  lemma SameElements(xs: seq<Rankable>, ys: seq<Rankable>)
    requires multiset(xs) == multiset(ys)
    ensures forall x :: x in xs <==> x in ys
    ensures |xs| == |ys|
  {
    forall x ensures x in xs <==> x in ys {
      assert x in multiset(xs) <==> x in multiset(ys);
    }
    assert |multiset(xs)| == |multiset(ys)|;
  }

  lemma HeadsEqual(s: seq<Rankable>, t: seq<Rankable>, draw: Uuid -> int)
    requires s != [] && multiset(s) == multiset(t) && DistinctDraws(s, draw)
    requires Sorted(s, draw) && Sorted(t, draw)
    ensures t != [] && s[0] == t[0]
  {
    SameElements(s, t);
    assert s[0] in t && t[0] in s;
    HeadBeats(s, t[0], draw);
    HeadBeats(t, s[0], draw);
    NoTie(s[0], t[0], draw);
  }

  lemma TailDistinct(s: seq<Rankable>, draw: Uuid -> int)
    requires s != [] && DistinctDraws(s, draw) && Sorted(s, draw)
    ensures DistinctDraws(s[1..], draw) && Sorted(s[1..], draw)
  {
  }

  lemma {:induction false} SortedUnique(s: seq<Rankable>, t: seq<Rankable>, draw: Uuid -> int)
    requires multiset(s) == multiset(t) && DistinctDraws(s, draw) && DistinctDraws(t, draw)
    requires Sorted(s, draw) && Sorted(t, draw)
    ensures s == t
    decreases |s|
  {
    SameElements(s, t);
    if s != [] {
      HeadsEqual(s, t, draw);
      TailMultiset(s);
      TailMultiset(t);
      TailDistinct(s, draw);
      TailDistinct(t, draw);
      SortedUnique(s[1..], t[1..], draw);
      assert s == [s[0]] + s[1..] && t == [t[0]] + t[1..];
    }
  }

  /** Whatever order the entries arrive in and whatever sort is used, there is one ranking: the
      live leaderboard and settlement cannot disagree. */
  lemma RankingUnique(xs: seq<Rankable>, ys: seq<Rankable>, out1: seq<Rankable>, out2: seq<Rankable>, draw: Uuid -> int)
    requires multiset(xs) == multiset(ys) && DistinctDraws(xs, draw)
    requires IsRanking(xs, out1, draw) && IsRanking(ys, out2, draw)
    ensures out1 == out2
  {
    SameElements(xs, out1);
    SameElements(xs, out2);
    SortedUnique(out1, out2, draw);
  }

  // ---------------------------------------------------------------- who ranks first

  /** More points; then more correct expert picks; then more correct hard picks; then the earlier
      submission; then the smaller draw hash. */
  predicate Outranks(a: Rankable, b: Rankable, draw: Uuid -> int) {
    || a.totalPointsX10 > b.totalPointsX10
    || (a.totalPointsX10 == b.totalPointsX10 &&
        (|| a.correctExpert > b.correctExpert
         || (a.correctExpert == b.correctExpert &&
             (|| a.correctHard > b.correctHard
              || (a.correctHard == b.correctHard &&
                  (|| a.submittedAt < b.submittedAt
                   || (a.submittedAt == b.submittedAt && draw(a.entryId) < draw(b.entryId))))))))
  }

  /** A ranking is exactly a permutation in which nobody stands behind somebody they outrank. */
  lemma RankingIff(xs: seq<Rankable>, out: seq<Rankable>, draw: Uuid -> int)
    ensures IsRanking(xs, out, draw) <==>
            multiset(out) == multiset(xs) && forall i, j :: 0 <= i < j < |out| ==> !Outranks(out[j], out[i], draw)
  {
    forall i, j | 0 <= i < j < |out| ensures Compare(out[i], out[j], draw) <= 0 <==> !Outranks(out[j], out[i], draw) {}
  }

  /** Level by level: of two entries the one in front has at least as many points; with the same points at
      least as many expert picks; and so on down to the draw. */
  lemma BetterEntriesFirst(xs: seq<Rankable>, out: seq<Rankable>, draw: Uuid -> int, i: nat, j: nat)
    requires IsRanking(xs, out, draw) && i < j < |out|
    ensures var a, b := out[i], out[j];
            && a.totalPointsX10 >= b.totalPointsX10
            && (a.totalPointsX10 == b.totalPointsX10 ==>
                  && a.correctExpert >= b.correctExpert
                  && (a.correctExpert == b.correctExpert ==>
                        && a.correctHard >= b.correctHard
                        && (a.correctHard == b.correctHard ==>
                              && a.submittedAt <= b.submittedAt
                              && (a.submittedAt == b.submittedAt ==> draw(a.entryId) <= draw(b.entryId)))))
  {
    assert Compare(out[i], out[j], draw) <= 0;
  }

  lemma TailMultiset(s: seq<Rankable>)
    requires s != []
    ensures multiset(s[1..]) == multiset(s) - multiset{s[0]}
  {
    assert s == [s[0]] + s[1..];
  }

  lemma HeadBeats(out: seq<Rankable>, x: Rankable, draw: Uuid -> int)
    requires Sorted(out, draw) && x in out
    ensures out[0] == x || Compare(out[0], x, draw) <= 0
  {
  }

  lemma NoTie(a: Rankable, b: Rankable, draw: Uuid -> int)
    requires a == b || (Compare(a, b, draw) <= 0 && Compare(b, a, draw) <= 0)
    requires draw(a.entryId) == draw(b.entryId) ==> a == b
    ensures a == b
  {
  }

  /** A reference sort: it shows that a ranking exists. */
  function Insert(x: Rankable, xs: seq<Rankable>, draw: Uuid -> int): seq<Rankable> {
    if xs == [] then [x]
    else if Compare(x, xs[0], draw) <= 0 then [x] + xs
    else [xs[0]] + Insert(x, xs[1..], draw)
  }

  function RankEntries(xs: seq<Rankable>, draw: Uuid -> int): seq<Rankable> {
    if xs == [] then [] else Insert(xs[0], RankEntries(xs[1..], draw), draw)
  }

  lemma PrependKeepsSorted(x: Rankable, xs: seq<Rankable>, draw: Uuid -> int)
    requires Sorted(xs, draw)
    requires forall y :: y in xs ==> Compare(x, y, draw) <= 0
    ensures Sorted([x] + xs, draw)
  {
  }

  lemma HeadBelowAll(x: Rankable, xs: seq<Rankable>, draw: Uuid -> int)
    requires Sorted(xs, draw) && xs != [] && Compare(x, xs[0], draw) <= 0
    ensures forall y :: y in xs ==> Compare(x, y, draw) <= 0
  {
  }

  lemma CompareTotal(a: Rankable, b: Rankable, draw: Uuid -> int)
    requires Compare(a, b, draw) > 0
    ensures Compare(b, a, draw) <= 0
  {
  }

  lemma {:induction false} InsertKeepsSorted(x: Rankable, xs: seq<Rankable>, draw: Uuid -> int)
    requires Sorted(xs, draw)
    ensures Sorted(Insert(x, xs, draw), draw)
    ensures multiset(Insert(x, xs, draw)) == multiset(xs) + multiset{x}
  {
    if xs == [] {
    } else if Compare(x, xs[0], draw) <= 0 {
      HeadBelowAll(x, xs, draw);
      PrependKeepsSorted(x, xs, draw);
    } else {
      var rest := Insert(x, xs[1..], draw);
      InsertKeepsSorted(x, xs[1..], draw);
      assert xs == [xs[0]] + xs[1..];
      forall y | y in rest ensures Compare(xs[0], y, draw) <= 0 {
        assert y in multiset(rest);
        CompareTotal(x, xs[0], draw);
        if y in xs[1..] {
          var j :| 0 <= j < |xs[1..]| && xs[1..][j] == y;
          assert xs[j + 1] == y;
        }
      }
      PrependKeepsSorted(xs[0], rest, draw);
    }
  }

  /** The reference sort returns a ranking; with `RankingUnique`, the only one. */
  lemma {:induction false} RankEntriesIsRanking(xs: seq<Rankable>, draw: Uuid -> int)
    ensures IsRanking(xs, RankEntries(xs, draw), draw)
  {
    if xs != [] {
      RankEntriesIsRanking(xs[1..], draw);
      InsertKeepsSorted(xs[0], RankEntries(xs[1..], draw), draw);
      assert xs == [xs[0]] + xs[1..];
    }
  }

  // ---------------------------------------------------------------- prizes

  datatype PayoutRow = PayoutRow(from: int, to: int, shareBps: int)

  /** A zero share sum divides by zero. */
  datatype PrizeResult = Prizes(amounts: seq<int>) | DivisionByZero

  /** What position `p` (counted from 1) is worth: the last row that covers it decides, and a
      row's share is divided evenly, rounded down, over the positions it spans. */
  function ShareAt(rows: seq<PayoutRow>, p: int): Option<int> {
    if rows == [] then None
    else
      var row := rows[|rows| - 1];
      if row.from <= p <= row.to then Some(row.shareBps / (row.to - row.from + 1))
      else ShareAt(rows[..|rows| - 1], p)
  }

  /** The last position any row pays. */
  function Extent(rows: seq<PayoutRow>): nat {
    if rows == [] then 0
    else
      var row, e := rows[|rows| - 1], Extent(rows[..|rows| - 1]);
      if row.from <= row.to && row.to > e then row.to else e
  }

  /** Positions start at 1, shares are not negative and no position below the last is missing. */
  predicate ValidTemplate(rows: seq<PayoutRow>) {
    && (forall row :: row in rows ==> row.from >= 1 && row.shareBps >= 0)
    && (forall p :: 1 <= p <= Extent(rows) ==> ShareAt(rows, p).Some?)
  }

  function PerPosition(rows: seq<PayoutRow>): (shares: seq<int>)
    requires ValidTemplate(rows)
    ensures |shares| == Extent(rows)
  {
    seq(Extent(rows), i requires 0 <= i < Extent(rows) => ShareAt(rows, i + 1).value)
  }

  function SumSeq(s: seq<int>): int {
    if s == [] then 0 else s[0] + SumSeq(s[1..])
  }

  function Floors(pool: int, shares: seq<int>, total: int): (f: seq<int>)
    requires total > 0
    ensures |f| == |shares|
  {
    seq(|shares|, i requires 0 <= i < |shares| => pool * shares[i] / total)
  }

  function Min(x: int, y: int): int { if x < y then x else y }

  function ComputePrizes(pool: int, rows: seq<PayoutRow>, entrants: nat): PrizeResult
    requires ValidTemplate(rows)
  {
    var paid := Min(entrants, Extent(rows));
    if paid == 0 || pool <= 0 then Prizes([])
    else
      var shares := PerPosition(rows)[..paid];
      var total := SumSeq(shares);
      SharesNonNegative(rows, paid);
      if total == 0 then DivisionByZero
      else
        var floors := Floors(pool, shares, total);
        Prizes(floors[0 := floors[0] + (pool - SumSeq(floors))])
  }

  lemma {:induction false} ShareAtNonNegative(rows: seq<PayoutRow>, p: int)
    requires forall row :: row in rows ==> row.shareBps >= 0
    requires ShareAt(rows, p).Some?
    ensures ShareAt(rows, p).value >= 0
  {
    var row := rows[|rows| - 1];
    assert row in rows;
    if !(row.from <= p <= row.to) { ShareAtNonNegative(rows[..|rows| - 1], p); }
  }

  lemma {:induction false} SumNonNegative(s: seq<int>)
    requires forall i :: 0 <= i < |s| ==> s[i] >= 0
    ensures SumSeq(s) >= 0
    ensures SumSeq(s) == 0 <==> forall i :: 0 <= i < |s| ==> s[i] == 0
  {
    if s != [] {
      SumNonNegative(s[1..]);
      assert forall i :: 0 < i < |s| ==> s[i] == s[1..][i - 1];
    }
  }

  lemma SharesNonNegative(rows: seq<PayoutRow>, paid: nat)
    requires ValidTemplate(rows) && paid <= Extent(rows)
    ensures var shares := PerPosition(rows)[..paid];
            && (forall i :: 0 <= i < paid ==> shares[i] >= 0)
            && SumSeq(shares) >= 0
            && (SumSeq(shares) == 0 <==> forall i :: 0 <= i < paid ==> shares[i] == 0)
  {
    var shares := PerPosition(rows)[..paid];
    forall i | 0 <= i < paid ensures shares[i] >= 0 { ShareAtNonNegative(rows, i + 1); }
    SumNonNegative(shares);
  }

  /** Rounding down loses less than one unit per share. */
  lemma {:induction false} FloorSumBounds(pool: int, shares: seq<int>, total: int)
    requires total > 0
    ensures total * SumSeq(Floors(pool, shares, total)) <= pool * SumSeq(shares)
    ensures shares != [] ==> pool * SumSeq(shares) < total * (SumSeq(Floors(pool, shares, total)) + |shares|)
  {
    if shares != [] {
      var rest := shares[1..];
      FloorSumBounds(pool, rest, total);
      assert Floors(pool, shares, total)[1..] == Floors(pool, rest, total);
      FloorSumStep(pool, shares[0], total, SumSeq(rest), SumSeq(Floors(pool, rest, total)), |rest|);
    }
  }

  lemma Distribute(k: int, x: int, y: int)
    ensures k * (x + y) == k * x + k * y
  {
  }

  /** One more share: `t` is the sum of the others, `s` that of their floors, `n` their number. */
  lemma FloorSumStep(pool: int, share: int, total: int, t: int, s: int, n: nat)
    requires total > 0 && total * s <= pool * t
    requires if n == 0 then t == 0 && s == 0 else pool * t < total * (s + n)
    ensures total * (pool * share / total + s) <= pool * (share + t)
    ensures pool * (share + t) < total * (pool * share / total + s + (n + 1))
  {
    var q := pool * share / total;
    DivideBounds(pool * share, total);
    Distribute(pool, share, t);
    Distribute(total, q, s);
    Distribute(total, q + 1, s + n);
    assert q + s + (n + 1) == (q + 1) + (s + n);
    if n == 0 { assert total * (s + n) == 0 && pool * t == 0; }
  }

  lemma {:induction false} SumUpdate(s: seq<int>, i: nat, v: int)
    requires i < |s|
    ensures SumSeq(s[i := v]) == SumSeq(s) - s[i] + v
  {
    if i > 0 {
      assert s[i := v][1..] == s[1..][i - 1 := v];
      SumUpdate(s[1..], i - 1, v);
    } else {
      assert s[0 := v][1..] == s[1..];
    }
  }

  lemma MultiplyMonotone(k: int, x: int, y: int)
    requires k > 0
    ensures x <= y ==> k * x <= k * y
    ensures x < y ==> k * x < k * y
  {
  }

  /** Division rounding down, as the unique quotient. */
  lemma DivideBounds(x: int, d: int)
    requires d > 0
    ensures d * (x / d) <= x < d * (x / d + 1)
  {
  }

  lemma FloorMonotone(pool: int, a: int, b: int, total: int)
    requires pool >= 0 && total > 0 && a <= b
    ensures pool * a / total <= pool * b / total
  {
    if pool > 0 { MultiplyMonotone(pool, a, b); }
    var x, y := pool * a, pool * b;
    DivideBounds(x, total);
    DivideBounds(y, total);
    MultiplyMonotone(total, y / total + 1, x / total);
  }

  lemma DustBounds(pool: int, shares: seq<int>, total: int)
    requires shares != [] && total == SumSeq(shares) > 0
    ensures 0 <= pool - SumSeq(Floors(pool, shares, total)) < |shares|
  {
    var f := SumSeq(Floors(pool, shares, total));
    FloorSumBounds(pool, shares, total);
    MultiplyMonotone(total, pool, f);
    MultiplyMonotone(total, f + |shares|, pool);
  }

  lemma FloorShare(pool: int, share: int, total: int)
    requires pool >= 0 && total > 0 && share >= 0
    ensures var q := pool * share / total;
            q >= 0 && q * total <= pool * share < (q + 1) * total
  {
  }

  /** When the split fails, and everything promised of it when it does not: the whole pool is paid
      out, the dust is smaller than the number of paid positions, every prize but the first is
      the exact share rounded down, and prizes decrease when shares do. */
  lemma PrizesCorrect(pool: int, rows: seq<PayoutRow>, entrants: nat)
    requires ValidTemplate(rows) && pool > 0 && entrants > 0 && rows != [] && Extent(rows) > 0
    ensures var paid := Min(entrants, Extent(rows));
            var shares := PerPosition(rows)[..paid];
            var total := SumSeq(shares);
            var r := ComputePrizes(pool, rows, entrants);
            && (r.DivisionByZero? <==> forall i :: 0 <= i < paid ==> shares[i] == 0)
            && (r.Prizes? ==>
                  && |r.amounts| == paid
                  && SumSeq(r.amounts) == pool
                  && (forall i :: 0 <= i < paid ==> r.amounts[i] >= 0)
                  && (forall i :: 1 <= i < paid ==>
                       r.amounts[i] * total <= pool * shares[i] < (r.amounts[i] + 1) * total)
                  && (0 <= r.amounts[0] - pool * shares[0] / total < paid)
                  && ((forall i, j :: 0 <= i < j < paid ==> shares[i] >= shares[j]) ==>
                        forall i, j :: 0 <= i < j < paid ==> r.amounts[i] >= r.amounts[j]))
  {
    var paid := Min(entrants, Extent(rows));
    var shares := PerPosition(rows)[..paid];
    var total := SumSeq(shares);
    SharesNonNegative(rows, paid);
    if total > 0 {
      var f := Floors(pool, shares, total);
      DustBounds(pool, shares, total);
      SumUpdate(f, 0, f[0] + (pool - SumSeq(f)));
      forall i | 0 <= i < paid ensures f[i] >= 0 && f[i] * total <= pool * shares[i] < (f[i] + 1) * total {
        FloorShare(pool, shares[i], total);
      }
      forall i, j | 0 <= i < j < paid && shares[i] >= shares[j] ensures f[i] >= f[j] {
        FloorMonotone(pool, shares[j], shares[i], total);
      }
    }
  }

  // ---------------------------------------------------------------- what a template says

  predicate Covers(row: PayoutRow, p: int) { row.from <= p <= row.to }

  /** Every covered position is paid, and the last paid position is covered. */
  lemma {:induction false} ExtentIsLast(rows: seq<PayoutRow>)
    ensures forall k, p :: 0 <= k < |rows| && Covers(rows[k], p) ==> p <= Extent(rows)
    ensures Extent(rows) > 0 ==> exists k :: 0 <= k < |rows| && Covers(rows[k], Extent(rows))
  {
    if rows != [] {
      var rest, last := rows[..|rows| - 1], |rows| - 1;
      ExtentIsLast(rest);
      assert forall k :: 0 <= k < last ==> rest[k] == rows[k];
      if Extent(rows) > 0 {
        if Extent(rows) == Extent(rest) {
          var k :| 0 <= k < |rest| && Covers(rest[k], Extent(rest));
          assert Covers(rows[k], Extent(rows));
        } else {
          assert Covers(rows[last], Extent(rows));
        }
      }
    }
  }

  lemma {:induction false} LastRowDecides(rows: seq<PayoutRow>, k: nat, p: int)
    requires k < |rows| && Covers(rows[k], p) && forall j :: k < j < |rows| ==> !Covers(rows[j], p)
    ensures ShareAt(rows, p) == Some(rows[k].shareBps / (rows[k].to - rows[k].from + 1))
  {
    if k < |rows| - 1 {
      assert !Covers(rows[|rows| - 1], p);
      LastRowDecides(rows[..|rows| - 1], k, p);
    }
  }

  /** A position is worth the share of the last row that covers it, spread evenly over the row's positions
      and rounded down. */
  lemma ShareOfRow(rows: seq<PayoutRow>, k: nat, p: int)
    requires ValidTemplate(rows) && k < |rows| && Covers(rows[k], p)
    requires forall j :: k < j < |rows| ==> !Covers(rows[j], p)
    ensures 1 <= p <= Extent(rows)
    ensures IsQuotient(PerPosition(rows)[p - 1], rows[k].shareBps, rows[k].to - rows[k].from + 1)
  {
    assert rows[k] in rows;
    ExtentIsLast(rows);
    LastRowDecides(rows, k, p);
    DivideRoundsDown(rows[k].shareBps, rows[k].to - rows[k].from + 1);
  }

  /** q is x over d, rounded down. */
  predicate IsQuotient(q: int, x: int, d: int) { d > 0 && q * d <= x < (q + 1) * d }

  lemma DivideRoundsDown(x: int, d: int)
    requires d > 0
    ensures IsQuotient(x / d, x, d)
  {
  }

  /** One row per position, in order. */
  predicate OneRowEach(rows: seq<PayoutRow>) {
    forall i :: 0 <= i < |rows| ==> rows[i].from == i + 1 == rows[i].to && rows[i].shareBps >= 0
  }

  lemma OneRowShares(rows: seq<PayoutRow>)
    requires OneRowEach(rows)
    ensures ValidTemplate(rows) && Extent(rows) == |rows|
    ensures forall i :: 0 <= i < |rows| ==> PerPosition(rows)[i] == rows[i].shareBps
  {
    ExtentIsLast(rows);
    forall i | 0 <= i < |rows| ensures ShareAt(rows, i + 1) == Some(rows[i].shareBps) && i + 1 <= Extent(rows) {
      assert Covers(rows[i], i + 1);
      LastRowDecides(rows, i, i + 1);
    }
    if rows == [] {
    } else {
      assert Covers(rows[|rows| - 1], |rows|);
    }
  }

  /** With one row per position every place but the first gets its basis points of the pool, out of the sum
      of the paid ones, rounded down; the first gets the rest. */
  lemma PrizesOfRows(pool: int, rows: seq<PayoutRow>, entrants: nat)
    requires OneRowEach(rows) && pool > 0 && ValidTemplate(rows)
    ensures var paid := Min(entrants, |rows|);
            var total := SumSeq(seq(paid, i requires 0 <= i < |rows| => rows[i].shareBps));
            var r := ComputePrizes(pool, rows, entrants);
            (paid > 0 && total > 0) ==>
              && r.Prizes? && |r.amounts| == paid && SumSeq(r.amounts) == pool
              && forall i :: 1 <= i < paid ==> r.amounts[i] == pool * rows[i].shareBps / total
  {
    var paid := Min(entrants, |rows|);
    OneRowShares(rows);
    assert PerPosition(rows)[..paid] == seq(paid, i requires 0 <= i < |rows| => rows[i].shareBps);
    if paid > 0 { PrizesCorrect(pool, rows, entrants); }
  }

  /** A sparse array read. */
  function Slot(m: map<int, int>, i: int): Option<int> {
    if i in m then Some(m[i]) else None
  }

  /** Expands the template into a sparse array, clamps it to the entrants and splits the pool. */
  method ComputePrizeAmounts(pool: int, rows: seq<PayoutRow>, entrants: nat) returns (r: PrizeResult)
    requires ValidTemplate(rows)
    ensures r == ComputePrizes(pool, rows, entrants)
  {
    var perPosition: map<int, int> := map[];
    var length := 0;
    for k := 0 to |rows|
      invariant length == Extent(rows[..k])
      invariant forall i :: Slot(perPosition, i) == ShareAt(rows[..k], i + 1)
    {
      var row := rows[k];
      assert rows[..k + 1][..k] == rows[..k];
      ghost var before := perPosition;
      var span := row.to - row.from + 1;
      var pos := row.from;
      while pos <= row.to
        invariant row.from <= pos <= (if row.from <= row.to then row.to + 1 else row.from)
        invariant length == if pos > row.from && pos - 1 > Extent(rows[..k]) then pos - 1 else Extent(rows[..k])
        invariant forall i :: Slot(perPosition, i) ==
                    if row.from <= i + 1 < pos then Some(row.shareBps / span) else Slot(before, i)
      {
        ghost var previous := perPosition;
        perPosition := perPosition[pos - 1 := row.shareBps / span];
        assert forall i ::
          Slot(perPosition, i) == if i == pos - 1 then Some(row.shareBps / span) else Slot(previous, i);
        if pos > length { length := pos; }
        pos := pos + 1;
      }
    }
    assert rows[..|rows|] == rows;
    var paid := Min(entrants, length);
    if paid == 0 || pool <= 0 {
      return Prizes([]);
    }
    assert forall i :: 0 <= i < paid ==> Slot(perPosition, i).Some?;
    var shares := seq(paid, i requires 0 <= i < paid && Slot(perPosition, i).Some? => Slot(perPosition, i).value);
    assert shares == PerPosition(rows)[..paid];
    SharesNonNegative(rows, paid);
    var shareSum := SumSeq(shares);
    if shareSum == 0 {
      return DivisionByZero;
    }
    var prizes := Floors(pool, shares, shareSum);
    var dust := pool - SumSeq(prizes);
    prizes := prizes[0 := prizes[0] + dust];
    return Prizes(prizes);
  }
}
