/**
 The double-entry ledger: accounts with a running balance, an append-only journal and
 idempotency keys.

 `Post` is the value-level specification of one posting; `Books` objects (class
 `LedgerService`) run the same posting line by line, in place, with rollback.
 Amounts are in minor units; a positive line credits its account.
 */
module Ledger {

  type Uuid = nat

  datatype Option<+T> = None | Some(value: T)

  datatype AccountId =
    | UserAvailable(user: Uuid)
    | UserPending(user: Uuid)
    | ContestEscrow(contest: Uuid)
    | GatewayClearing
    | PlatformRevenue
    | External

  /** The account types whose balance must never go below zero. */
  predicate NonNegative(a: AccountId) {
    a.UserAvailable? || a.UserPending? || a.ContestEscrow?
  }

  /** An idempotency key: a constant prefix naming the movement, then an identifier. */
  datatype Key =
    | DepositKey(intent: Uuid)
    | EntryKey(client: Uuid)
    | RefundKey(entry: Uuid)
    | SettlementKey(contest: Uuid)
    | HoldKey(withdrawal: Uuid)
    | SettleKey(withdrawal: Uuid)
    | ReverseKey(withdrawal: Uuid)

  datatype Line = Line(account: AccountId, amount: int)

  datatype JournalEntry = JournalEntry(key: Key, lines: seq<Line>)

  datatype Books = Books(balances: map<AccountId, int>, journal: seq<JournalEntry>)

  datatype PostError =
    | EmptyJournal
    | ZeroAmountLine
    | UnbalancedJournal(sum: int)
    | AccountMissing
    | InsufficientFunds(account: AccountId)

  datatype PostResult = Posted(id: nat) | Replayed(id: nat) | Rejected(error: PostError)

  datatype Applied = Ok(balances: map<AccountId, int>) | Overdrawn(account: AccountId)

  // ---------------------------------------------------------------- key text

  /** The text of a key, given the text of the identifiers. */
  function KeyText(k: Key, name: Uuid -> string): string {
    match k
    case DepositKey(i) => "deposit:" + name(i)
    case EntryKey(i) => "entry:" + name(i)
    case RefundKey(i) => "refund:" + name(i)
    case SettlementKey(i) => "settlement:" + name(i)
    case HoldKey(i) => "withdrawal-hold:" + name(i)
    case SettleKey(i) => "withdrawal-settle:" + name(i)
    case ReverseKey(i) => "withdrawal-reverse:" + name(i)
  }

  function KeyPrefix(k: Key): string {
    match k
    case DepositKey(_) => "deposit:"
    case EntryKey(_) => "entry:"
    case RefundKey(_) => "refund:"
    case SettlementKey(_) => "settlement:"
    case HoldKey(_) => "withdrawal-hold:"
    case SettleKey(_) => "withdrawal-settle:"
    case ReverseKey(_) => "withdrawal-reverse:"
  }

  function KeyUuid(k: Key): Uuid {
    match k
    case DepositKey(i) => i
    case EntryKey(i) => i
    case RefundKey(i) => i
    case SettlementKey(i) => i
    case HoldKey(i) => i
    case SettleKey(i) => i
    case ReverseKey(i) => i
  }

  /** Keys of different movements never collide, and one movement's keys differ with the
      identifier: comparing constructors is the same as comparing the stored strings. */
  lemma KeyTextInjective(k1: Key, k2: Key, name: Uuid -> string)
    requires forall i, j :: name(i) == name(j) ==> i == j
    requires KeyText(k1, name) == KeyText(k2, name)
    ensures k1 == k2
  {
    var p1, p2 := KeyPrefix(k1), KeyPrefix(k2);
    var t := KeyText(k1, name);
    assert t == p1 + name(KeyUuid(k1)) && t == p2 + name(KeyUuid(k2));
    assert t[0] == p1[0] == p2[0];
    if |p1| > 11 && |p2| > 11 {
      assert t[11] == p1[11] && t[11] == p2[11];
    }
    assert p1 == p2;
    assert name(KeyUuid(k1)) == t[|p1|..] == name(KeyUuid(k2));
  }

  // ---------------------------------------------------------------- sums

  function Sum(lines: seq<Line>): int {
    if lines == [] then 0 else lines[0].amount + Sum(lines[1..])
  }

  /** What the lines add to one account. */
  function LinesTotal(lines: seq<Line>, a: AccountId): int {
    if lines == [] then 0
    else (if lines[0].account == a then lines[0].amount else 0) + LinesTotal(lines[1..], a)
  }

  /** What the whole journal adds to one account. */
  function JournalTotal(journal: seq<JournalEntry>, a: AccountId): int {
    if journal == [] then 0
    else JournalTotal(journal[..|journal| - 1], a) + LinesTotal(journal[|journal| - 1].lines, a)
  }

  /** The money paid into an account: the sum of its positive lines. */
  function Credits(lines: seq<Line>, a: AccountId): nat {
    if lines == [] then 0
    else (if lines[0].account == a && lines[0].amount > 0 then lines[0].amount else 0) + Credits(lines[1..], a)
  }

  /** The money paid out of an account: the sum of its negative lines. */
  function Debits(lines: seq<Line>, a: AccountId): nat {
    if lines == [] then 0
    else (if lines[0].account == a && lines[0].amount < 0 then -lines[0].amount else 0) + Debits(lines[1..], a)
  }

  function AllLines(journal: seq<JournalEntry>): seq<Line> {
    if journal == [] then [] else AllLines(journal[..|journal| - 1]) + journal[|journal| - 1].lines
  }

  lemma {:induction false} CreditsMinusDebits(lines: seq<Line>, a: AccountId)
    ensures LinesTotal(lines, a) == Credits(lines, a) - Debits(lines, a)
  {
    if lines != [] { CreditsMinusDebits(lines[1..], a); }
  }

  lemma {:induction false} LinesTotalConcat(s: seq<Line>, t: seq<Line>, a: AccountId)
    ensures LinesTotal(s + t, a) == LinesTotal(s, a) + LinesTotal(t, a)
  {
    if s == [] {
      assert s + t == t;
    } else {
      LinesTotalConcat(s[1..], t, a);
      assert (s + t)[1..] == s[1..] + t;
    }
  }

  lemma {:induction false} JournalTotalIsLinesTotal(journal: seq<JournalEntry>, a: AccountId)
    ensures JournalTotal(journal, a) == LinesTotal(AllLines(journal), a)
  {
    if journal != [] {
      var n := |journal| - 1;
      JournalTotalIsLinesTotal(journal[..n], a);
      LinesTotalConcat(AllLines(journal[..n]), journal[n].lines, a);
    }
  }

  lemma JournalTotalAppend(journal: seq<JournalEntry>, e: JournalEntry, a: AccountId)
    ensures JournalTotal(journal + [e], a) == JournalTotal(journal, a) + LinesTotal(e.lines, a)
  {
  }

  /** The sum of all balances. */
  ghost function Total(b: map<AccountId, int>): int
    decreases |b|
  {
    if b == map[] then 0
    else
      assert b.Keys != {};
      var a :| a in b;
      b[a] + Total(b - {a})
  }

  /** The account that is added up first. */
  lemma TotalPick(b: map<AccountId, int>) returns (c: AccountId)
    requires b != map[]
    ensures c in b && Total(b) == b[c] + Total(b - {c})
  {
    assert b.Keys != {};
    c :| c in b && Total(b) == b[c] + Total(b - {c});
  }

  /** The total does not depend on the order in which accounts are added up. */
  lemma {:induction false} TotalRemove(b: map<AccountId, int>, a: AccountId)
    requires a in b
    ensures Total(b) == b[a] + Total(b - {a})
    decreases |b|
  {
    var c := TotalPick(b);
    if c != a {
      var withoutC, withoutA := b - {c}, b - {a};
      TotalRemove(withoutC, a);
      TotalRemove(withoutA, c);
      assert withoutC - {a} == withoutA - {c};
    }
  }

  lemma TotalUpdate(b: map<AccountId, int>, a: AccountId, v: int)
    ensures Total(b[a := v]) == Total(b) + v - (if a in b then b[a] else 0)
  {
    TotalRemove(b[a := v], a);
    if a in b {
      TotalRemove(b, a);
      assert b[a := v] - {a} == b - {a};
    } else {
      assert b[a := v] - {a} == b;
    }
  }

  // ---------------------------------------------------------------- posting

  predicate HasZeroLine(lines: seq<Line>) {
    exists i :: 0 <= i < |lines| && lines[i].amount == 0
  }

  /** The checks made before the database is touched. */
  function ValidateLines(lines: seq<Line>): Option<PostError> {
    if |lines| < 2 then Some(EmptyJournal)
    else if HasZeroLine(lines) then Some(ZeroAmountLine)
    else if Sum(lines) != 0 then Some(UnbalancedJournal(Sum(lines)))
    else None
  }

  predicate KeyUsed(journal: seq<JournalEntry>, k: Key) {
    exists i :: 0 <= i < |journal| && journal[i].key == k
  }

  function FindKey(journal: seq<JournalEntry>, k: Key): (i: nat)
    requires KeyUsed(journal, k)
    ensures i < |journal| && journal[i].key == k
    ensures forall j :: 0 <= j < i ==> journal[j].key != k
  {
    if journal[0].key == k then 0
    else
      assert KeyUsed(journal[1..], k) by {
        var i :| 0 <= i < |journal| && journal[i].key == k;
        assert journal[1..][i - 1].key == k;
      }
      var r := FindKey(journal[1..], k);
      assert forall j :: 0 < j < r + 1 ==> journal[j] == journal[1..][j - 1];
      r + 1
  }

  predicate AccountsExist(b: map<AccountId, int>, lines: seq<Line>) {
    forall i :: 0 <= i < |lines| ==> lines[i].account in b
  }

  /** Lines take effect one after the other; the first balance that goes negative on a guarded
      account stops the posting, even when a later line would have repaired it. */
  function ApplyLines(b: map<AccountId, int>, lines: seq<Line>): Applied
    requires AccountsExist(b, lines)
  {
    if lines == [] then Ok(b)
    else
      var a := lines[0].account;
      assert lines[0] in lines;
      var b' := b[a := b[a] + lines[0].amount];
      if NonNegative(a) && b'[a] < 0 then Overdrawn(a) else ApplyLines(b', lines[1..])
  }

  /** One posting, committed or aborted as a whole. */
  function Post(s: Books, key: Key, lines: seq<Line>): (Books, PostResult) {
    var invalid := ValidateLines(lines);
    if invalid.Some? then (s, Rejected(invalid.value))
    else if KeyUsed(s.journal, key) then (s, Replayed(FindKey(s.journal, key)))
    else if !AccountsExist(s.balances, lines) then (s, Rejected(AccountMissing))
    else
      match ApplyLines(s.balances, lines)
      case Overdrawn(a) => (s, Rejected(InsufficientFunds(a)))
      case Ok(b) => (Books(b, s.journal + [JournalEntry(key, lines)]), Posted(|s.journal|))
  }

  /** Opening an account that exists violates a unique index and changes nothing. */
  function Open(s: Books, a: AccountId): Books {
    if a in s.balances then s else s.(balances := s.balances[a := 0])
  }

  lemma {:induction false} ApplyLinesEffect(b: map<AccountId, int>, lines: seq<Line>)
    requires AccountsExist(b, lines)
    requires ApplyLines(b, lines).Ok?
    requires forall a :: a in b && NonNegative(a) ==> b[a] >= 0
    ensures var b' := ApplyLines(b, lines).balances;
            && b'.Keys == b.Keys
            && (forall a :: a in b ==> b'[a] == b[a] + LinesTotal(lines, a))
            && (forall a :: a in b && NonNegative(a) ==> b'[a] >= 0)
            && Total(b') == Total(b) + Sum(lines)
  {
    if lines != [] {
      var a := lines[0].account;
      assert lines[0] in lines;
      var b1 := b[a := b[a] + lines[0].amount];
      TotalUpdate(b, a, b[a] + lines[0].amount);
      ApplyLinesEffect(b1, lines[1..]);
    }
  }

  /** Exactly when a posting goes through: after no line may a guarded account be below zero. */
  lemma {:induction false} ApplyLinesIff(b: map<AccountId, int>, lines: seq<Line>)
    requires AccountsExist(b, lines)
    ensures ApplyLines(b, lines).Ok? <==>
            forall i :: 0 <= i < |lines| && NonNegative(lines[i].account) ==>
              b[lines[i].account] + LinesTotal(lines[..i + 1], lines[i].account) >= 0
  {
    if lines != [] {
      var a, rest := lines[0].account, lines[1..];
      assert lines[0] in lines;
      var b1 := b[a := b[a] + lines[0].amount];
      assert LinesTotal(lines[..1], a) == lines[0].amount by { assert lines[..1] == [lines[0]]; }
      ApplyLinesIff(b1, rest);
      forall i | 0 <= i < |rest|
        ensures b1[rest[i].account] + LinesTotal(rest[..i + 1], rest[i].account)
             == b[lines[i + 1].account] + LinesTotal(lines[..i + 2], lines[i + 1].account)
      {
        assert lines[..i + 2][1..] == rest[..i + 1];
      }
      if forall i :: 0 <= i < |lines| && NonNegative(lines[i].account) ==>
          b[lines[i].account] + LinesTotal(lines[..i + 1], lines[i].account) >= 0 {
        forall i | 0 <= i < |rest| && NonNegative(rest[i].account)
          ensures b1[rest[i].account] + LinesTotal(rest[..i + 1], rest[i].account) >= 0
        {
          assert lines[i + 1] == rest[i];
        }
      } else {
        var i :| 0 <= i < |lines| && NonNegative(lines[i].account)
              && b[lines[i].account] + LinesTotal(lines[..i + 1], lines[i].account) < 0;
        if i > 0 { assert rest[i - 1] == lines[i]; }
      }
    }
  }

  // ---------------------------------------------------------------- invariant

  /** The balance of an account is the sum of its journal lines. */
  predicate Reconciled(s: Books, a: AccountId) {
    a in s.balances ==> s.balances[a] == JournalTotal(s.journal, a)
  }

  predicate NewKey(journal: seq<JournalEntry>, i: nat)
    requires i < |journal|
  {
    forall j :: 0 <= j < i ==> journal[j].key != journal[i].key
  }

  predicate EntryOk(s: Books, i: nat)
    requires i < |s.journal|
  {
    ValidateLines(s.journal[i].lines).None? && AccountsExist(s.balances, s.journal[i].lines)
  }

  ghost predicate Valid(s: Books) {
    && (forall a :: Reconciled(s, a))
    && Total(s.balances) == 0
    && (forall a :: a in s.balances && NonNegative(a) ==> s.balances[a] >= 0)
    && (forall i :: 0 <= i < |s.journal| ==> NewKey(s.journal, i))
    && (forall i :: 0 <= i < |s.journal| ==> EntryOk(s, i))
  }

  const EMPTY := Books(map[], [])

  lemma PostKeepsValid(s: Books, key: Key, lines: seq<Line>)
    requires Valid(s)
    ensures Valid(Post(s, key, lines).0)
  {
    if Post(s, key, lines).1.Posted? {
      var s' := Post(s, key, lines).0;
      ApplyLinesEffect(s.balances, lines);
      forall a ensures Reconciled(s', a) {
        assert Reconciled(s, a);
        JournalTotalAppend(s.journal, JournalEntry(key, lines), a);
      }
      forall i | 0 <= i < |s'.journal| ensures NewKey(s'.journal, i) && EntryOk(s', i) {
        if i < |s.journal| { assert NewKey(s.journal, i) && EntryOk(s, i); }
      }
    }
  }

  /** Exactly when a posting goes through, and what it answers otherwise: the lines are at least two, none zero,
      and balance; the key is new; the accounts exist; and no prefix of the lines overdraws a guarded one. */
  lemma PostIff(s: Books, key: Key, lines: seq<Line>)
    ensures var (s', r) := Post(s, key, lines);
            var sound := |lines| >= 2 && Sum(lines) == 0 && forall l :: l in lines ==> l.amount != 0;
            && (r.Posted? <==>
                  && sound && !KeyUsed(s.journal, key) && AccountsExist(s.balances, lines)
                  && forall i :: 0 <= i < |lines| && NonNegative(lines[i].account) ==>
                       s.balances[lines[i].account] + LinesTotal(lines[..i + 1], lines[i].account) >= 0)
            && (r.Posted? ==> r.id == |s.journal| && s'.journal == s.journal + [JournalEntry(key, lines)])
            && (r.Replayed? <==> sound && KeyUsed(s.journal, key))
            && (r.Replayed? ==> r.id < |s.journal| && s.journal[r.id].key == key)
            && (!r.Posted? ==> s' == s)
  {
    if AccountsExist(s.balances, lines) { ApplyLinesIff(s.balances, lines); }
    assert HasZeroLine(lines) <==> exists l :: l in lines && l.amount == 0 by {
      if l :| l in lines && l.amount == 0 { assert exists i :: 0 <= i < |lines| && lines[i] == l; }
    }
  }

  /** Why a posting is refused. */
  lemma PostErrors(s: Books, key: Key, lines: seq<Line>)
    requires Post(s, key, lines).1.Rejected?
    ensures match Post(s, key, lines).1.error
            case EmptyJournal => |lines| < 2
            case ZeroAmountLine => |lines| >= 2 && exists l :: l in lines && l.amount == 0
            case UnbalancedJournal(sum) => |lines| >= 2 && sum == Sum(lines) != 0
            case AccountMissing => exists l :: l in lines && l.account !in s.balances
            case InsufficientFunds(a) =>
              && AccountsExist(s.balances, lines) && NonNegative(a)
              && exists i :: 0 <= i < |lines| && lines[i].account == a &&
                   s.balances[a] + LinesTotal(lines[..i + 1], a) < 0
  {
    if AccountsExist(s.balances, lines) {
      if ApplyLines(s.balances, lines).Overdrawn? { OverdrawnAt(s.balances, lines); }
    } else {
      var i :| 0 <= i < |lines| && lines[i].account !in s.balances;
      assert lines[i] in lines;
    }
    if HasZeroLine(lines) {
      var i :| 0 <= i < |lines| && lines[i].amount == 0;
      assert lines[i] in lines;
    }
  }

  /** The reported account is guarded and some prefix of the lines overdraws it. */
  lemma {:induction false} OverdrawnAt(b: map<AccountId, int>, lines: seq<Line>)
    requires AccountsExist(b, lines) && ApplyLines(b, lines).Overdrawn?
    ensures var a := ApplyLines(b, lines).account;
            && NonNegative(a) && a in b
            && exists i :: 0 <= i < |lines| && lines[i].account == a && b[a] + LinesTotal(lines[..i + 1], a) < 0
  {
    var first, a, rest := lines[0].account, ApplyLines(b, lines).account, lines[1..];
    assert lines[0] in lines;
    var b1 := b[first := b[first] + lines[0].amount];
    if NonNegative(first) && b1[first] < 0 {
      assert lines[..1] == [lines[0]] && LinesTotal(lines[..1], first) == lines[0].amount;
    } else {
      OverdrawnAt(b1, rest);
      var i :| 0 <= i < |rest| && rest[i].account == a && b1[a] + LinesTotal(rest[..i + 1], a) < 0;
      assert lines[..i + 2][1..] == rest[..i + 1];
      assert lines[i + 1].account == a;
    }
  }

  lemma {:induction false} UntouchedAccount(journal: seq<JournalEntry>, a: AccountId)
    requires forall i, l :: 0 <= i < |journal| && l in journal[i].lines ==> l.account != a
    ensures JournalTotal(journal, a) == 0
  {
    if journal != [] {
      UntouchedAccount(journal[..|journal| - 1], a);
      UntouchedLines(journal[|journal| - 1].lines, a);
    }
  }

  lemma {:induction false} UntouchedLines(lines: seq<Line>, a: AccountId)
    requires forall l :: l in lines ==> l.account != a
    ensures LinesTotal(lines, a) == 0
  {
    if lines != [] {
      assert lines[0] in lines;
      UntouchedLines(lines[1..], a);
    }
  }

  lemma OpenKeepsValid(s: Books, a: AccountId)
    requires Valid(s)
    ensures Valid(Open(s, a))
  {
    if a !in s.balances {
      var s' := Open(s, a);
      TotalUpdate(s.balances, a, 0);
      forall i | 0 <= i < |s.journal|
        ensures NewKey(s'.journal, i) && EntryOk(s', i) && AccountsExist(s.balances, s.journal[i].lines)
      {
        assert NewKey(s.journal, i) && EntryOk(s, i);
      }
      UntouchedAccount(s.journal, a);
      forall x ensures Reconciled(s', x) { assert Reconciled(s, x); }
    }
  }

  // ---------------------------------------------------------------- runs

  datatype Op = OpenOp(account: AccountId) | PostOp(key: Key, lines: seq<Line>)

  function Do(s: Books, op: Op): Books {
    match op
    case OpenOp(a) => Open(s, a)
    case PostOp(k, lines) => Post(s, k, lines).0
  }

  function Run(s: Books, ops: seq<Op>): Books
    decreases |ops|
  {
    if ops == [] then s else Run(Do(s, ops[0]), ops[1..])
  }

  lemma DoKeepsValid(s: Books, op: Op)
    requires Valid(s)
    ensures Valid(Do(s, op))
    ensures s.journal <= Do(s, op).journal && s.balances.Keys <= Do(s, op).balances.Keys
  {
    match op
    case OpenOp(a) => OpenKeepsValid(s, a);
    case PostOp(k, lines) =>
      PostKeepsValid(s, k, lines);
      PostGrows(s, k, lines);
  }

  lemma PostGrows(s: Books, key: Key, lines: seq<Line>)
    requires Valid(s)
    ensures s.journal <= Post(s, key, lines).0.journal
    ensures Post(s, key, lines).0.balances.Keys == s.balances.Keys
  {
    if Post(s, key, lines).1.Posted? { ApplyLinesEffect(s.balances, lines); }
  }

  /** Whatever is posted, in whatever order: balances are the journal's sums, money is neither
      made nor lost, guarded accounts are never negative, and history is only appended to. */
  lemma {:induction false} LedgerInvariant(s: Books, ops: seq<Op>)
    requires Valid(s)
    ensures Valid(Run(s, ops))
    ensures s.journal <= Run(s, ops).journal
    ensures s.balances.Keys <= Run(s, ops).balances.Keys
    decreases |ops|
  {
    if ops != [] {
      DoKeepsValid(s, ops[0]);
      LedgerInvariant(Do(s, ops[0]), ops[1..]);
    }
  }

  /** Operations at the positions not in `drop`, in order; `at` is the position of `ops[0]`. */
  function Without(ops: seq<Op>, drop: set<nat>, at: nat): seq<Op> {
    if ops == [] then []
    else (if at in drop then [] else [ops[0]]) + Without(ops[1..], drop, at + 1)
  }

  /** The operation is a posting whose key is already in the journal. */
  predicate IsReplay(s: Books, op: Op) {
    op.PostOp? && KeyUsed(s.journal, op.key)
  }

  /** Position `j` repeats the key of an earlier posting of the run that left its key behind. */
  predicate RepeatsSuccess(s: Books, ops: seq<Op>, j: nat) {
    && j < |ops| && ops[j].PostOp?
    && exists i :: 0 <= i < j && ops[i].PostOp? && ops[i].key == ops[j].key
         && KeyUsed(Run(s, ops[..i + 1]).journal, ops[i].key)
  }

  lemma {:induction false} RunConcat(s: Books, xs: seq<Op>, ys: seq<Op>)
    ensures Run(s, xs + ys) == Run(Run(s, xs), ys)
    decreases |xs|
  {
    if xs == [] {
      assert xs + ys == ys;
    } else {
      assert (xs + ys)[1..] == xs[1..] + ys;
      RunConcat(Do(s, xs[0]), xs[1..], ys);
    }
  }

  lemma {:induction false} JournalGrows(s: Books, ops: seq<Op>)
    ensures s.journal <= Run(s, ops).journal
    decreases |ops|
  {
    if ops != [] { JournalGrows(Do(s, ops[0]), ops[1..]); }
  }

  lemma RepeatIsReplay(s: Books, ops: seq<Op>, j: nat)
    requires RepeatsSuccess(s, ops, j)
    ensures IsReplay(Run(s, ops[..j]), ops[j])
  {
    var i :| 0 <= i < j && ops[i].PostOp? && ops[i].key == ops[j].key
          && KeyUsed(Run(s, ops[..i + 1]).journal, ops[i].key);
    var mid := Run(s, ops[..i + 1]);
    assert ops[..j] == ops[..i + 1] + ops[i + 1..j];
    RunConcat(s, ops[..i + 1], ops[i + 1..j]);
    JournalGrows(mid, ops[i + 1..j]);
    var p :| 0 <= p < |mid.journal| && mid.journal[p].key == ops[i].key;
    assert Run(s, ops[..j]).journal[p].key == ops[j].key;
  }

  lemma {:induction false} DropReplays(s: Books, ops: seq<Op>, drop: set<nat>, at: nat)
    requires forall j :: 0 <= j < |ops| && at + j in drop ==> IsReplay(Run(s, ops[..j]), ops[j])
    ensures Run(s, Without(ops, drop, at)) == Run(s, ops)
    decreases |ops|
  {
    if ops != [] {
      var s1, rest := Do(s, ops[0]), ops[1..];
      forall j | 0 <= j < |rest| && at + 1 + j in drop ensures IsReplay(Run(s1, rest[..j]), rest[j]) {
        assert ops[..j + 1][1..] == rest[..j];
      }
      DropReplays(s1, rest, drop, at + 1);
      if at in drop {
        assert IsReplay(Run(s, ops[..0]), ops[0]);
        assert s1 == s;
        assert [] + Without(rest, drop, at + 1) == Without(rest, drop, at + 1);
      } else {
        assert ([ops[0]] + Without(rest, drop, at + 1))[1..] == Without(rest, drop, at + 1);
      }
    }
  }

  /** Deleting any repeated requests from a run, whatever lines they carried, changes neither
      the journal nor a balance. */
  lemma ReplayDeletion(s: Books, ops: seq<Op>, drop: set<nat>)
    requires forall j :: j in drop && j < |ops| ==> RepeatsSuccess(s, ops, j)
    ensures Run(s, Without(ops, drop, 0)) == Run(s, ops)
  {
    forall j | 0 <= j < |ops| && 0 + j in drop ensures IsReplay(Run(s, ops[..j]), ops[j]) {
      RepeatIsReplay(s, ops, j);
    }
    DropReplays(s, ops, drop, 0);
  }

  // ---------------------------------------------------------------- transfers

  /** Two lines moving an amount between two accounts, debit first. */
  function Transfer(from: AccountId, to: AccountId, amount: int): seq<Line> {
    [Line(from, -amount), Line(to, amount)]
  }

  /** One amount moved between two accounts, and nothing else did. */
  ghost predicate MovesOnly(b: Books, b': Books, from: AccountId, to: AccountId, amount: int) {
    && b'.balances.Keys == b.balances.Keys && from in b.balances && to in b.balances
    && b'.balances[from] == b.balances[from] - amount
    && b'.balances[to] == b.balances[to] + amount
    && (forall a :: a in b.balances && a != from && a != to ==> b'.balances[a] == b.balances[a])
  }

  /** A transfer of a positive amount goes through exactly when the key is new, both accounts
      exist and a guarded source can cover it; then only these two balances move. */
  lemma TransferOutcome(s: Books, key: Key, from: AccountId, to: AccountId, amount: int)
    requires from != to && amount > 0
    requires to in s.balances && NonNegative(to) ==> s.balances[to] >= 0
    ensures var (s', r) := Post(s, key, Transfer(from, to, amount));
            if KeyUsed(s.journal, key) then
              s' == s && r == Replayed(FindKey(s.journal, key))
            else if from in s.balances && to in s.balances && (NonNegative(from) ==> s.balances[from] >= amount) then
              && r == Posted(|s.journal|)
              && s'.balances == s.balances[from := s.balances[from] - amount][to := s.balances[to] + amount]
              && s'.journal == s.journal + [JournalEntry(key, Transfer(from, to, amount))]
            else s' == s && r.Rejected?
  {
    var lines := Transfer(from, to, amount);
    assert lines[1..] == [Line(to, amount)] && lines[1..][1..] == [];
    assert Sum(lines) == 0 by {
      assert Sum(lines[1..]) == amount + Sum(lines[1..][1..]);
      assert Sum(lines) == lines[0].amount + Sum(lines[1..]);
    }
    assert ValidateLines(lines).None?;
    if AccountsExist(s.balances, lines) {
      var b1 := s.balances[from := s.balances[from] - amount];
      assert ApplyLines(s.balances, lines) ==
        if NonNegative(from) && b1[from] < 0 then Overdrawn(from) else ApplyLines(b1, lines[1..]);
      assert ApplyLines(b1, lines[1..]) == ApplyLines(b1[to := b1[to] + amount], lines[1..][1..]);
    }
  }

  /** A non-positive transfer is refused: zero lines are invalid. */
  lemma ZeroTransferRejected(s: Books, key: Key, from: AccountId, to: AccountId)
    ensures Post(s, key, Transfer(from, to, 0)) == (s, Rejected(ZeroAmountLine))
  {
  }

  lemma KeyUsedAppend(journal: seq<JournalEntry>, e: JournalEntry, k: Key)
    ensures KeyUsed(journal + [e], k) <==> KeyUsed(journal, k) || e.key == k
  {
    if KeyUsed(journal, k) {
      var i :| 0 <= i < |journal| && journal[i].key == k;
      assert (journal + [e])[i].key == k;
    }
    if e.key == k { assert (journal + [e])[|journal|].key == k; }
  }

  lemma KeysAfter(journal: seq<JournalEntry>, e: JournalEntry)
    ensures forall k :: KeyUsed(journal + [e], k) <==> KeyUsed(journal, k) || k == e.key
  {
    forall k ensures KeyUsed(journal + [e], k) <==> KeyUsed(journal, k) || k == e.key {
      KeyUsedAppend(journal, e, k);
    }
  }

  lemma PostedBalances(b: Books, key: Key, lines: seq<Line>)
    requires Valid(b) && Post(b, key, lines).1.Posted?
    ensures var b' := Post(b, key, lines).0;
            && b'.balances.Keys == b.balances.Keys
            && (forall a :: a in b.balances ==> b'.balances[a] == b.balances[a] + LinesTotal(lines, a))
            && !KeyUsed(b.journal, key)
            && b'.journal == b.journal + [JournalEntry(key, lines)]
  {
    ApplyLinesEffect(b.balances, lines);
  }

  // ---------------------------------------------------------------- the service

  /** The ledger as the service keeps it: balances and journal are updated in place. */
  class LedgerService {
    var balances: map<AccountId, int>
    var journal: seq<JournalEntry>

    ghost function State(): Books
      reads this
    {
      Books(balances, journal)
    }

    constructor ()
      ensures State() == EMPTY && Valid(State())
    {
      balances, journal := map[], [];
    }

    /** Unique account creation. */
    method OpenAccount(a: AccountId) returns (created: bool)
      modifies this
      ensures State() == Open(old(State()), a)
      ensures created == (a !in old(balances))
    {
      created := a !in balances;
      if created { balances := balances[a := 0]; }
    }

    /** Finds the journal entry that already used the key. */
    method FindExisting(key: Key) returns (existing: Option<nat>)
      ensures existing.None? <==> !KeyUsed(journal, key)
      ensures existing.Some? ==> KeyUsed(journal, key) && existing.value == FindKey(journal, key)
    {
      var i := 0;
      while i < |journal|
        invariant 0 <= i <= |journal|
        invariant forall j :: 0 <= j < i ==> journal[j].key != key
      {
        if journal[i].key == key {
          return Some(i);
        }
        i := i + 1;
      }
      return None;
    }

    /** Inserts the entry, then updates balances line by line; the first negative guarded balance
        rolls everything back. */
    method PostJournal(key: Key, lines: seq<Line>) returns (r: PostResult)
      modifies this
      ensures State() == Post(old(State()), key, lines).0
      ensures r == Post(old(State()), key, lines).1
      ensures r.Rejected? ==> balances == old(balances) && journal == old(journal)
    {
      var invalid := ValidateLines(lines);
      if invalid.Some? {
        return Rejected(invalid.value);
      }
      var existing := FindExisting(key);
      if existing.Some? {
        return Replayed(existing.value);
      }
      if !AccountsExist(balances, lines) {
        return Rejected(AccountMissing);
      }
      var savedBalances, savedJournal := balances, journal;
      journal := journal + [JournalEntry(key, lines)];
      var i := 0;
      while i < |lines|
        invariant 0 <= i <= |lines|
        invariant balances.Keys == savedBalances.Keys
        invariant journal == savedJournal + [JournalEntry(key, lines)]
        invariant ApplyLines(savedBalances, lines) == ApplyLines(balances, lines[i..])
      {
        var a := lines[i].account;
        assert lines[i..][0] == lines[i] && lines[i..][1..] == lines[i + 1..];
        balances := balances[a := balances[a] + lines[i].amount];
        if NonNegative(a) && balances[a] < 0 {
          balances, journal := savedBalances, savedJournal;
          return Rejected(InsufficientFunds(a));
        }
        i := i + 1;
      }
      return Posted(|savedJournal|);
    }
  }
}
