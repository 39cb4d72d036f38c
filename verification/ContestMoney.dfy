/**
 The money of contests as a transition system over the ledger: entry fees go into a contest's
 escrow, and leave it through a cancellation (one refund per entry) or through settlement (one
 journal for the whole contest).

 Every transaction is one atomic commit. The guards that the services read before their
 transactions may be stale at the commit: a submission, a publication, a cancellation and a
 settlement can all commit in a world that has moved on since they looked.
 */
module ContestMoney {
  import opened Ledger
  import opened Ranking

  datatype Status = Draft | Published | Locked | Scoring | Scored | Settled | Cancelled

  type Fee = f: int | f > 0 witness 1
  type Bps = b: int | 0 <= b <= 10000
  type Template = rows: seq<PayoutRow> | ValidTemplate(rows) witness []

  datatype Contest = Contest(status: Status, fee: Fee, commissionBps: Bps, template: Template)

  datatype EntryStatus = ACTIVE | REFUNDED | SETTLED

  /** `charged` records that the fee journal was posted by this submission, not replayed. */
  datatype Entry = Entry(contest: Uuid, user: Uuid, status: EntryStatus, charged: bool, prize: int,
                         finalRank: Option<nat>)

  /** What an operation saw before its transaction began. */
  datatype Snapshot =
    | CancelSnapshot(contest: Uuid, escrowSeen: bool, entries: seq<Uuid>)
    | SettleSnapshot(contest: Uuid, ranked: seq<Uuid>)

  datatype World = World(books: Books, contests: map<Uuid, Contest>, entries: map<Uuid, Entry>,
                         pending: map<Uuid, Snapshot>)

  const START := World(EMPTY, map[], map[], map[])

  // ---------------------------------------------------------------- commits

  predicate Exists(w: World, a: AccountId) { a in w.books.balances }

  function EscrowIn(b: Books, c: Uuid): Option<int> {
    if ContestEscrow(c) in b.balances then Some(b.balances[ContestEscrow(c)]) else None
  }

  function SetStatus(w: World, c: Uuid, s: Status): World
    requires c in w.contests
  {
    w.(contests := w.contests[c := w.contests[c].(status := s)])
  }

  /** Sets the status and creates the escrow account, which may exist only once. */
  function Publish(w: World, c: Uuid): World {
    if c !in w.contests || Exists(w, ContestEscrow(c)) then w
    else SetStatus(w, c, Published).(books := Open(w.books, ContestEscrow(c)))
  }

  /** A conditional status update: no effect from any other status. */
  function Advance(w: World, c: Uuid, from: Status, to: Status): World {
    if c in w.contests && w.contests[c].status == from then SetStatus(w, c, to) else w
  }

  predicate AlreadyEntered(w: World, c: Uuid, u: Uuid) {
    exists e :: e in w.entries && w.entries[e].contest == c && w.entries[e].user == u
  }

  function FeeLines(w: World, c: Uuid, u: Uuid): seq<Line>
    requires c in w.contests
  {
    Transfer(UserAvailable(u), ContestEscrow(c), w.contests[c].fee)
  }

  /** Charge the fee under the client's key, then create the entry; both or neither. A used key
      moves no money but does not stop the entry. */
  function Submit(w: World, c: Uuid, u: Uuid, client: Uuid, e: Uuid): World {
    if c !in w.contests || !Exists(w, UserAvailable(u)) || !Exists(w, ContestEscrow(c)) || e in w.entries then w
    else
      var (books, r) := Post(w.books, EntryKey(client), FeeLines(w, c, u));
      if r.Rejected? || AlreadyEntered(w, c, u) then w
      else w.(books := books, entries := w.entries[e := Entry(c, u, ACTIVE, r.Posted?, 0, None)])
  }

  /** One refund per entry of the list, in order; any failure fails the whole. */
  function RefundAll(b: Books, c: Uuid, fee: Fee, entries: map<Uuid, Entry>, ids: seq<Uuid>): Option<Books>
    decreases |ids|
  {
    if ids == [] then Some(b)
    else if ids[0] !in entries || UserAvailable(entries[ids[0]].user) !in b.balances then None
    else
      var (b', r) := Post(b, RefundKey(ids[0]), Transfer(ContestEscrow(c), UserAvailable(entries[ids[0]].user), fee));
      if r.Rejected? then None else RefundAll(b', c, fee, entries, ids[1..])
  }

  function MarkRefunded(entries: map<Uuid, Entry>, ids: seq<Uuid>): map<Uuid, Entry> {
    map e | e in entries :: if e in ids then entries[e].(status := REFUNDED) else entries[e]
  }

  /** Refunds every entry of the snapshot; the escrow, when the snapshot had one, must end at
      zero. None is an abort. */
  function Cancel(w: World, snap: Snapshot): Option<World>
    requires snap.CancelSnapshot?
  {
    var c := snap.contest;
    if c !in w.contests || (!snap.escrowSeen && snap.entries != []) then None
    else
      var refunded := RefundAll(w.books, c, w.contests[c].fee, w.entries, snap.entries);
      if refunded.None? then None
      else if snap.escrowSeen &&
        (ContestEscrow(c) !in refunded.value.balances || refunded.value.balances[ContestEscrow(c)] != 0) then None
      else Some(SetStatus(w, c, Cancelled).(books := refunded.value, entries := MarkRefunded(w.entries, snap.entries)))
  }

  function Users(entries: map<Uuid, Entry>, ids: seq<Uuid>): (us: seq<Uuid>)
    requires forall id :: id in ids ==> id in entries
    ensures |us| == |ids|
  {
    seq(|ids|, i requires 0 <= i < |ids| => entries[ids[i]].user)
  }

  /** One line per winner with a positive prize. */
  function WinnerLines(prizes: seq<int>, users: seq<Uuid>): seq<Line>
    requires |prizes| <= |users|
  {
    if prizes == [] then []
    else
      (if prizes[0] > 0 then [Line(UserAvailable(users[0]), prizes[0])] else [])
      + WinnerLines(prizes[1..], users[1..])
  }

  /** Escrow out, platform in, then the winners. */
  function SettlementLines(c: Uuid, gross: int, commission: int, winners: seq<Line>): seq<Line> {
    [Line(ContestEscrow(c), -gross), Line(PlatformRevenue, commission)] + winners
  }

  function Pool(gross: int, bps: Bps): int { gross * (10000 - bps) / 10000 }

  function WritePrizes(entries: map<Uuid, Entry>, ranked: seq<Uuid>, prizes: seq<int>): (r: map<Uuid, Entry>)
    requires |prizes| <= |ranked| && forall id :: id in ranked ==> id in entries
    ensures r.Keys == entries.Keys
    decreases |prizes|
  {
    if prizes == [] then entries
    else
      var n := |prizes| - 1;
      var es := WritePrizes(entries, ranked, prizes[..n]);
      es[ranked[n] := es[ranked[n]].(prize := prizes[n])]
  }

  /** Final ranks 1, 2, 3, … in ranking order. */
  function WriteRanks(entries: map<Uuid, Entry>, ranked: seq<Uuid>): (r: map<Uuid, Entry>)
    requires forall id :: id in ranked ==> id in entries
    ensures r.Keys == entries.Keys
  {
    if ranked == [] then entries
    else
      var n := |ranked| - 1;
      var es := WriteRanks(entries, ranked[..n]);
      es[ranked[n] := es[ranked[n]].(status := SETTLED, finalRank := Some(n + 1))]
  }

  datatype Payout = Payout(books: Books, prizes: seq<int>)

  /** Posts the settlement journal for the escrow's current balance; the escrow must end at zero. */
  function PostSettlement(b: Books, c: Uuid, commission: int, winners: seq<Line>): Option<Books>
    requires ContestEscrow(c) in b.balances
  {
    var (b', r) := Post(b, SettlementKey(c), SettlementLines(c, b.balances[ContestEscrow(c)], commission, winners));
    if r.Rejected? || EscrowIn(b', c) != Some(0) then None else Some(b')
  }

  /** Computes the prizes for the escrow's current balance and settles it. None is an abort. */
  function PayOut(b: Books, c: Uuid, contest: Contest, users: seq<Uuid>): (r: Option<Payout>)
    requires ContestEscrow(c) in b.balances && users != []
    ensures r.Some? ==> |r.value.prizes| <= |users|
  {
    var pool := Pool(b.balances[ContestEscrow(c)], contest.commissionBps);
    var r := ComputePrizes(pool, contest.template, |users|);
    if r.DivisionByZero? then None
    else
      PrizeCount(pool, contest.template, |users|);
      if exists i :: 0 <= i < |r.amounts| && UserAvailable(users[i]) !in b.balances then None
      else
        var b' := PostSettlement(b, c, b.balances[ContestEscrow(c)] - SumSeq(r.amounts), WinnerLines(r.amounts, users));
        if b'.None? then None else Some(Payout(b'.value, r.amounts))
  }

  lemma PrizeCount(pool: int, rows: Template, entrants: nat)
    ensures var r := ComputePrizes(pool, rows, entrants); r.Prizes? ==> |r.amounts| <= entrants
  {
  }

  /** Pays the escrow's balance out over the ranking of the snapshot, writes prizes and ranks.
      None is an abort. */
  function Settle(w: World, snap: Snapshot): Option<World>
    requires snap.SettleSnapshot?
  {
    var c, ranked := snap.contest, snap.ranked;
    if c !in w.contests || !Exists(w, ContestEscrow(c)) || !Exists(w, PlatformRevenue)
       || exists id :: id in ranked && id !in w.entries then None
    else if w.books.balances[ContestEscrow(c)] > 0 && ranked != [] then
      var paid := PayOut(w.books, c, w.contests[c], Users(w.entries, ranked));
      if paid.None? then None
      else
        var es := WritePrizes(w.entries, ranked, paid.value.prizes);
        Some(SetStatus(w, c, Settled).(books := paid.value.books, entries := WriteRanks(es, ranked)))
    else Some(SetStatus(w, c, Settled).(entries := WriteRanks(w.entries, ranked)))
  }

  // ---------------------------------------------------------------- steps

  datatype Step =
    | CreateContest(c: Uuid, fee: Fee, bps: Bps, template: Template)
    | OpenAccountStep(a: AccountId)
    | Elsewhere(key: Key, lines: seq<Line>)
    | PublishStep(c: Uuid)
    | SubmitStep(c: Uuid, u: Uuid, client: Uuid, e: Uuid)
    | LockStep(c: Uuid)
    | ScoringStep(c: Uuid)
    | ScoredStep(c: Uuid)
    | ReadCancel(op: Uuid, c: Uuid, order: seq<Uuid>)
    | CommitCancel(op: Uuid)
    | ReadSettle(op: Uuid, c: Uuid, ranking: seq<Uuid>)
    | CommitSettle(op: Uuid)

  predicate Distinct(s: seq<Uuid>) {
    forall i, j :: 0 <= i < j < |s| ==> s[i] != s[j]
  }

  /** The list holds every active entry of the contest, once. */
  predicate ListsActive(w: World, c: Uuid, ids: seq<Uuid>) {
    && Distinct(ids)
    && (forall id :: id in ids ==> id in w.entries && w.entries[id].contest == c && w.entries[id].status == ACTIVE)
    && (forall e :: e in w.entries && w.entries[e].contest == c && w.entries[e].status == ACTIVE ==> e in ids)
  }

  /** A movement of another service: it has its own keys and never names an escrow. */
  predicate ForeignPosting(key: Key, lines: seq<Line>) {
    && !key.EntryKey? && !key.RefundKey? && !key.SettlementKey?
    && (forall l :: l in lines ==> !l.account.ContestEscrow?)
  }

  function Next(w: World, s: Step): World {
    match s
    case CreateContest(c, fee, bps, template) =>
      if c in w.contests then w else w.(contests := w.contests[c := Contest(Draft, fee, bps, template)])
    case OpenAccountStep(a) => if a.ContestEscrow? then w else w.(books := Open(w.books, a))
    case Elsewhere(key, lines) => if ForeignPosting(key, lines) then w.(books := Post(w.books, key, lines).0) else w
    case PublishStep(c) => Publish(w, c)
    case SubmitStep(c, u, client, e) => Submit(w, c, u, client, e)
    case LockStep(c) => Advance(w, c, Published, Locked)
    case ScoringStep(c) => Advance(w, c, Locked, Scoring)
    case ScoredStep(c) => Advance(w, c, Scoring, Scored)
    case ReadCancel(op, c, order) =>
      if op !in w.pending && c in w.contests && w.contests[c].status in {Draft, Published, Locked} &&
        ListsActive(w, c, order)
      then w.(pending := w.pending[op := CancelSnapshot(c, Exists(w, ContestEscrow(c)), order)]) else w
    case CommitCancel(op) =>
      if op in w.pending && w.pending[op].CancelSnapshot? then
        var r := Cancel(w, w.pending[op]);
        (if r.Some? then r.value else w).(pending := w.pending - {op})
      else w
    case ReadSettle(op, c, ranking) =>
      if op !in w.pending && c in w.contests && w.contests[c].status == Scored && ListsActive(w, c, ranking)
      then w.(pending := w.pending[op := SettleSnapshot(c, ranking)]) else w
    case CommitSettle(op) =>
      if op in w.pending && w.pending[op].SettleSnapshot? then
        var r := Settle(w, w.pending[op]);
        (if r.Some? then r.value else w).(pending := w.pending - {op})
      else w
  }

  function Run(w: World, steps: seq<Step>): World
    decreases |steps|
  {
    if steps == [] then w else Run(Next(w, steps[0]), steps[1..])
  }

  /** The submission guard still holds when the submission commits. */
  predicate FreshStep(w: World, s: Step) {
    s.SubmitStep? ==> s.c in w.contests && w.contests[s.c].status == Published
  }

  predicate Fresh(w: World, steps: seq<Step>)
    decreases |steps|
  {
    steps == [] || (FreshStep(w, steps[0]) && Fresh(Next(w, steps[0]), steps[1..]))
  }

  // ---------------------------------------------------------------- per-contest view

  /** Everything in the world that concerns one contest. */
  datatype View = View(contest: Option<Contest>, escrow: Option<int>, entries: map<Uuid, Entry>, refunded: set<Uuid>,
                       settled: bool)

  ghost function ViewOf(w: World, c: Uuid): View {
    View(if c in w.contests then Some(w.contests[c]) else None,
         EscrowIn(w.books, c),
         (map e | e in w.entries && w.entries[e].contest == c :: w.entries[e]),
         (set e | e in w.entries && w.entries[e].contest == c && KeyUsed(w.books.journal, RefundKey(e))),
         KeyUsed(w.books.journal, SettlementKey(c)))
  }

  ghost function Active(entries: map<Uuid, Entry>): set<Uuid> {
    set e | e in entries && entries[e].status == ACTIVE
  }

  ghost function ChargedActive(entries: map<Uuid, Entry>): set<Uuid> {
    set e | e in entries && entries[e].status == ACTIVE && entries[e].charged
  }

  lemma ChargedAtMostActive(entries: map<Uuid, Entry>)
    ensures |ChargedActive(entries)| <= |Active(entries)|
    ensures |ChargedActive(entries)| == |Active(entries)| <==> forall e :: e in Active(entries) ==> entries[e].charged
  {
    var ca, a := ChargedActive(entries), Active(entries);
    assert a == ca + (a - ca);
    if forall e :: e in a ==> entries[e].charged { assert a == ca; }
    if e :| e in a && !entries[e].charged { assert e in a - ca; }
  }
}
