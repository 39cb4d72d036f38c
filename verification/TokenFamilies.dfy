/**
 Refresh tokens in families: a login starts a family, every rotation consumes one token and issues
 the next, and showing a consumed or revoked token burns the whole family (refresh token rotation,
 section 5.2.2.3 of RFC 6819).

 A token stands for its hash: the n-th token ever issued is `n`, so a token never repeats. A family
 is named by its first token.
 */
module TokenFamilies {
  import opened Ledger

  datatype Session = Session(user: Uuid, family: nat, expiresAt: int, consumed: bool, revoked: bool)

  datatype Outcome = Issued(token: nat) | InvalidToken | Reuse | Expired | AccountDisabled

  // ---------------------------------------------------------------- operations

  function Issue(s: seq<Session>, user: Uuid, family: Option<nat>, expires: int): seq<Session> {
    s + [Session(user, if family.Some? then family.value else |s|, expires, false, false)]
  }

  function Burn(s: seq<Session>, family: nat): (r: seq<Session>)
    ensures |r| == |s|
  {
    seq(|s|, i requires 0 <= i < |s| => if s[i].family == family then s[i].(revoked := true) else s[i])
  }

  /** Everything rotation checks, in order; `None` means it may go on. */
  function Refusal(s: seq<Session>, token: nat, now: int, disabled: set<Uuid>): Option<Outcome> {
    if token >= |s| then Some(InvalidToken)
    else if s[token].revoked || s[token].consumed then Some(Reuse)
    else if s[token].expiresAt < now then Some(Expired)
    else if s[token].user in disabled then Some(AccountDisabled)
    else None
  }

  /** The first write of a rotation. */
  function Consume(s: seq<Session>, token: nat): seq<Session>
    requires token < |s|
  {
    s[token := s[token].(consumed := true)]
  }

  /** The second write of a rotation: the next token of the family. */
  function IssueNext(s: seq<Session>, token: nat, expires: int): seq<Session>
    requires token < |s|
  {
    Issue(s, s[token].user, Some(s[token].family), expires)
  }

  function Rotate(s: seq<Session>, token: nat, now: int, expires: int, disabled: set<Uuid>): (seq<Session>, Outcome) {
    match Refusal(s, token, now, disabled)
    case None => (IssueNext(Consume(s, token), token, expires), Issued(|s|))
    case Some(Reuse) => (Burn(s, s[token].family), Reuse)
    case Some(o) => (s, o)
  }

  function RevokeByToken(s: seq<Session>, token: nat): seq<Session> {
    if token < |s| then Burn(s, s[token].family) else s
  }

  // ---------------------------------------------------------------- runs

  /** A rotation between its guard read, which found the token live, and its last write. */
  datatype Rotation = Rotation(token: nat, consumed: bool)

  /** The sessions, the rotations under way, and a record, which the program does not keep, of the tokens
      whose successor was issued. */
  datatype State = State(sessions: seq<Session>, pending: map<Uuid, Rotation>, replaced: set<nat>)

  const START := State([], map[], {})

  /** `Refresh` is a rotation without interruption. `ReadStep`, `ConsumeStep` and `IssueStep` are the guard
      read and the two writes of one that is interrupted; anything may happen between them, and none of
      them need follow. A reuse that is detected early and burned late is a `Logout`. */
  datatype Step =
    | Login(user: Uuid, expires: int)
    | Refresh(token: nat, now: int, expires: int, disabled: set<Uuid>)
    | Logout(token: nat)
    | ReadStep(op: Uuid, token: nat, now: int, disabled: set<Uuid>)
    | ConsumeStep(op: Uuid)
    | IssueStep(op: Uuid, expires: int)

  predicate Reads(st: State, step: Step) {
    step.ReadStep? && step.op !in st.pending && Refusal(st.sessions, step.token, step.now, step.disabled).None?
  }

  predicate Consumes(st: State, step: Step) {
    step.ConsumeStep? && step.op in st.pending && !st.pending[step.op].consumed
    && st.pending[step.op].token < |st.sessions|
  }

  predicate Issues(st: State, step: Step) {
    step.IssueStep? && step.op in st.pending && st.pending[step.op].consumed
    && st.pending[step.op].token < |st.sessions|
  }

  predicate Rotates(st: State, step: Step) {
    step.Refresh? && Refusal(st.sessions, step.token, step.now, step.disabled).None?
  }

  function Next(st: State, step: Step): State {
    match step
    case Login(user, expires) => st.(sessions := Issue(st.sessions, user, None, expires))
    case Refresh(token, now, expires, disabled) =>
      State(Rotate(st.sessions, token, now, expires, disabled).0, st.pending,
            if Rotates(st, step) then st.replaced + {token} else st.replaced)
    case Logout(token) => st.(sessions := RevokeByToken(st.sessions, token))
    case ReadStep(op, token, _, _) =>
      if Reads(st, step) then st.(pending := st.pending[op := Rotation(token, false)]) else st
    case ConsumeStep(op) =>
      if Consumes(st, step)
      then st.(sessions := Consume(st.sessions, st.pending[op].token),
        pending := st.pending[op := st.pending[op].(consumed := true)])
      else st
    case IssueStep(op, expires) =>
      if Issues(st, step)
      then State(IssueNext(st.sessions, st.pending[op].token, expires), st.pending - {op},
        st.replaced + {st.pending[op].token})
      else st
  }

  function Run(st: State, steps: seq<Step>): State
    decreases |steps|
  {
    if steps == [] then st else Run(Next(st, steps[0]), steps[1..])
  }

  predicate Live(x: Session) { !x.consumed && !x.revoked }

  ghost function LiveTokens(s: seq<Session>, f: nat): set<nat> {
    set i: nat | i < |s| && s[i].family == f && Live(s[i])
  }

  /** The family was burned: every session of it is revoked. */
  ghost predicate Dead(s: seq<Session>, f: nat) {
    f < |s| && forall i :: 0 <= i < |s| && s[i].family == f ==> s[i].revoked
  }

  /** The second write of a rotation is in time: its token has no successor yet and was not burned. */
  predicate SafeStep(st: State, step: Step) {
    Issues(st, step) ==> var token := st.pending[step.op].token; token !in st.replaced && !st.sessions[token].revoked
  }

  predicate Safe(st: State, steps: seq<Step>)
    decreases |steps|
  {
    steps == [] || (SafeStep(st, steps[0]) && Safe(Next(st, steps[0]), steps[1..]))
  }

  // ---------------------------------------------------------------- invariant

  /** Of two sessions of one family the earlier has a successor; both have one user and are revoked
      together. */
  predicate Linked(s: seq<Session>, replaced: set<nat>, i: nat, j: nat)
    requires i < j < |s|
  {
    s[i].family == s[j].family ==> i in replaced && s[i].user == s[j].user && s[i].revoked == s[j].revoked
  }

  predicate Rooted(s: seq<Session>, i: nat)
    requires i < |s|
  {
    s[i].family <= i && s[s[i].family].family == s[i].family
  }

  ghost predicate Families(s: seq<Session>, replaced: set<nat>) {
    && (forall i :: 0 <= i < |s| ==> Rooted(s, i))
    && forall i, j :: 0 <= i < j < |s| ==> Linked(s, replaced, i, j)
  }

  /** A token with a successor is consumed, and its family goes on after it. */
  ghost predicate Followed(s: seq<Session>, t: nat) {
    t < |s| && s[t].consumed && exists j :: t < j < |s| && s[j].family == s[t].family
  }

  /** A consumed token without a successor belongs to a rotation that may still issue it. */
  ghost predicate Awaited(st: State, t: nat) {
    t < |st.sessions| && st.sessions[t].consumed && t !in st.replaced ==>
      exists op :: op in st.pending && st.pending[op] == Rotation(t, true)
  }

  predicate RotationOk(s: seq<Session>, r: Rotation) { r.token < |s| && (r.consumed ==> s[r.token].consumed) }

  ghost predicate Inv(st: State) {
    && Families(st.sessions, st.replaced)
    && (forall t :: t in st.replaced ==> Followed(st.sessions, t))
    && (forall t :: Awaited(st, t))
    && (forall op :: op in st.pending ==> RotationOk(st.sessions, st.pending[op]))
  }

  // ---------------------------------------------------------------- preservation

  /** The sessions that were there are still there; only flags change, and `consumed` never goes back. */
  ghost predicate Extends(s: seq<Session>, s': seq<Session>) {
    |s| <= |s'| && forall i :: 0 <= i < |s| ==>
      s'[i].family == s[i].family && s'[i].user == s[i].user && (s[i].consumed ==> s'[i].consumed)
  }

  lemma FollowedStays(s: seq<Session>, s': seq<Session>, t: nat)
    requires Extends(s, s') && Followed(s, t)
    ensures Followed(s', t)
  {
    var j :| t < j < |s| && s[j].family == s[t].family;
    assert s'[j].family == s'[t].family;
  }

  lemma LoginFamilies(s: seq<Session>, replaced: set<nat>, user: Uuid, expires: int)
    requires Families(s, replaced)
    ensures Families(Issue(s, user, None, expires), replaced)
  {
    var s' := Issue(s, user, None, expires);
    forall i | 0 <= i < |s'| ensures Rooted(s', i) { if i < |s| { assert Rooted(s, i); } }
    forall i, j | 0 <= i < j < |s'| ensures Linked(s', replaced, i, j) {
      if j < |s| { assert Linked(s, replaced, i, j); } else { assert Rooted(s, i); }
    }
  }

  lemma BurnFamilies(s: seq<Session>, replaced: set<nat>, f: nat)
    requires Families(s, replaced)
    ensures Families(Burn(s, f), replaced)
    ensures f < |s| ==> Dead(Burn(s, f), f)
  {
    var s' := Burn(s, f);
    forall i | 0 <= i < |s'| ensures Rooted(s', i) { assert Rooted(s, i); }
    forall i, j | 0 <= i < j < |s'| ensures Linked(s', replaced, i, j) { assert Linked(s, replaced, i, j); }
  }

  lemma ConsumeFamilies(s: seq<Session>, replaced: set<nat>, token: nat)
    requires Families(s, replaced) && token < |s|
    ensures Families(Consume(s, token), replaced)
  {
    var s' := Consume(s, token);
    forall i | 0 <= i < |s'| ensures Rooted(s', i) { assert Rooted(s, i); }
    forall i, j | 0 <= i < j < |s'| ensures Linked(s', replaced, i, j) { assert Linked(s, replaced, i, j); }
  }

  /** A token without a successor is the last of its family, so its successor may follow it. */
  lemma IssueFamilies(s: seq<Session>, replaced: set<nat>, token: nat, expires: int)
    requires Families(s, replaced) && token < |s| && token !in replaced && !s[token].revoked
    ensures Families(IssueNext(s, token, expires), replaced + {token})
  {
    var s', f := IssueNext(s, token, expires), s[token].family;
    assert Rooted(s, token);
    forall i | 0 <= i < |s'| ensures Rooted(s', i) { if i < |s| { assert Rooted(s, i); } }
    forall i, j | 0 <= i < j < |s'| ensures Linked(s', replaced + {token}, i, j) {
      if j < |s| {
        assert Linked(s, replaced, i, j);
      } else if s[i].family == f && i != token {
        if token < i { assert Linked(s, replaced, token, i); } else { assert Linked(s, replaced, i, token); }
      }
    }
  }

  /** A step that issues nothing to a family and leaves the record of successors alone. */
  lemma FlagsKeepInv(st: State, st': State)
    requires Inv(st) && Extends(st.sessions, st'.sessions) && Families(st'.sessions, st'.replaced) &&
             st'.replaced == st.replaced
    requires forall op :: op in st.pending ==> op in st'.pending && (st.pending[op].consumed ==>
             st'.pending[op] == st.pending[op])
    requires forall op :: op in st'.pending ==> RotationOk(st'.sessions, st'.pending[op])
    requires forall t :: 0 <= t < |st'.sessions| && st'.sessions[t].consumed && (t < |st.sessions| ==>
             !st.sessions[t].consumed) ==>
               exists op :: op in st'.pending && st'.pending[op] == Rotation(t, true)
    ensures Inv(st')
  {
    forall t | t in st'.replaced ensures Followed(st'.sessions, t) { FollowedStays(st.sessions, st'.sessions, t); }
    forall t ensures Awaited(st', t) { assert Awaited(st, t); }
  }

  lemma ConsumeKeepsInv(st: State, op: Uuid)
    requires Inv(st) && Consumes(st, ConsumeStep(op))
    ensures Inv(Next(st, ConsumeStep(op)))
  {
    var st' := Next(st, ConsumeStep(op));
    ConsumeFamilies(st.sessions, st.replaced, st.pending[op].token);
    assert st'.pending[op] == Rotation(st.pending[op].token, true);
    FlagsKeepInv(st, st');
  }

  lemma IssueKeepsInv(st: State, op: Uuid, expires: int)
    requires Inv(st) && Issues(st, IssueStep(op, expires)) && SafeStep(st, IssueStep(op, expires))
    ensures Inv(Next(st, IssueStep(op, expires)))
  {
    var st', token := Next(st, IssueStep(op, expires)), st.pending[op].token;
    IssueFamilies(st.sessions, st.replaced, token, expires);
    forall t | t in st'.replaced ensures Followed(st'.sessions, t) {
      if t == token {
        assert st'.sessions[|st.sessions|].family == st'.sessions[t].family;
      } else {
        FollowedStays(st.sessions, st'.sessions, t);
      }
    }
    forall t: nat ensures Awaited(st', t) {
      assert Awaited(st, t);
      if t < |st.sessions| && st.sessions[t].consumed && t !in st'.replaced {
        var p :| p in st.pending && st.pending[p] == Rotation(t, true);
        assert p in st'.pending;
      }
    }
    forall p | p in st'.pending ensures RotationOk(st'.sessions, st'.pending[p]) {
      assert RotationOk(st.sessions, st.pending[p]);
    }
  }

  lemma RotateKeepsInv(st: State, step: Step)
    requires Inv(st) && Rotates(st, step)
    ensures Inv(Next(st, step))
  {
    var st', token := Next(st, step), step.token;
    var used := Consume(st.sessions, token);
    assert token !in st.replaced;
    ConsumeFamilies(st.sessions, st.replaced, token);
    IssueFamilies(used, st.replaced, token, step.expires);
    assert st'.sessions == IssueNext(used, token, step.expires);
    forall t | t in st'.replaced ensures Followed(st'.sessions, t) {
      if t == token {
        assert st'.sessions[|st.sessions|].family == st'.sessions[t].family;
      } else {
        FollowedStays(st.sessions, st'.sessions, t);
      }
    }
    forall t ensures Awaited(st', t) { assert Awaited(st, t); }
    forall p | p in st'.pending ensures RotationOk(st'.sessions, st'.pending[p]) {
      assert RotationOk(st.sessions, st.pending[p]);
    }
  }

  lemma BurnKeepsInv(st: State, f: nat)
    requires Inv(st)
    ensures Inv(st.(sessions := Burn(st.sessions, f)))
  {
    BurnFamilies(st.sessions, st.replaced, f);
    FlagsKeepInv(st, st.(sessions := Burn(st.sessions, f)));
  }

  lemma StepKeepsInv(st: State, step: Step)
    requires Inv(st) && SafeStep(st, step)
    ensures Inv(Next(st, step))
  {
    match step
    case Login(user, expires) =>
      LoginFamilies(st.sessions, st.replaced, user, expires);
      FlagsKeepInv(st, Next(st, step));
    case Refresh(token, now, expires, disabled) =>
      if Rotates(st, step) {
        RotateKeepsInv(st, step);
      } else if Refusal(st.sessions, token, now, disabled) == Some(Reuse) {
        BurnKeepsInv(st, st.sessions[token].family);
      }
    case Logout(token) => if token < |st.sessions| { BurnKeepsInv(st, st.sessions[token].family); }
    case ReadStep(op, token, now, disabled) => if Reads(st, step) { FlagsKeepInv(st, Next(st, step)); }
    case ConsumeStep(op) => if Consumes(st, step) { ConsumeKeepsInv(st, op); }
    case IssueStep(op, expires) => if Issues(st, step) { IssueKeepsInv(st, op, expires); }
  }

  lemma {:induction false} RunKeepsInv(st: State, steps: seq<Step>)
    requires Inv(st) && Safe(st, steps)
    ensures Inv(Run(st, steps))
    decreases |steps|
  {
    if steps != [] {
      StepKeepsInv(st, steps[0]);
      RunKeepsInv(Next(st, steps[0]), steps[1..]);
    }
  }

  // ---------------------------------------------------------------- guarantees

  lemma AtMostOneLive(st: State, f: nat)
    requires Inv(st)
    ensures |LiveTokens(st.sessions, f)| <= 1
  {
    var s := st.sessions;
    forall i, j | 0 <= i < j < |s| && s[i].family == s[j].family ensures !Live(s[i]) {
      assert Linked(s, st.replaced, i, j) && Followed(s, i);
    }
    if i :| i in LiveTokens(s, f) {
      assert forall j :: j in LiveTokens(s, f) ==> j == i;
      assert LiveTokens(s, f) == {i};
    }
  }

  /** In every run whose second writes are in time a family has at most one token that still rotates, and
      one user. */
  lemma OneLiveToken(steps: seq<Step>, f: nat)
    requires Safe(START, steps)
    ensures var s := Run(START, steps).sessions;
            && |LiveTokens(s, f)| <= 1
            && forall i, j :: 0 <= i < j < |s| && s[i].family == s[j].family ==> s[i].user == s[j].user
  {
    RunKeepsInv(START, steps);
    var st := Run(START, steps);
    AtMostOneLive(st, f);
    forall i, j | 0 <= i < j < |st.sessions| && st.sessions[i].family == st.sessions[j].family
      ensures st.sessions[i].user == st.sessions[j].user
    {
      assert Linked(st.sessions, st.replaced, i, j);
    }
  }

  /** Showing a used or revoked token, and logging out with any token, burns its family. */
  lemma ReuseBurnsFamily(steps: seq<Step>, token: nat, now: int, expires: int, disabled: set<Uuid>)
    requires Safe(START, steps) && token < |Run(START, steps).sessions|
    ensures var s := Run(START, steps).sessions; var (s', o) := Rotate(s, token, now, expires, disabled);
            && (s[token].consumed || s[token].revoked ==> o == Reuse && Dead(s', s[token].family))
            && Dead(RevokeByToken(s, token), s[token].family)
  {
    RunKeepsInv(START, steps);
    var st := Run(START, steps);
    assert Rooted(st.sessions, token);
    BurnFamilies(st.sessions, st.replaced, st.sessions[token].family);
  }

  /** A token is the last of its family. */
  predicate IsLastOfFamily(s: seq<Session>, token: nat)
    requires token < |s|
  {
    forall i :: token < i < |s| ==> s[i].family != s[token].family
  }

  /** Exactly which tokens rotate: the unconsumed last token of a family that was not burned, until it expires
      and unless its user is disabled. The new token belongs to the same user and family, lasts as long as
      asked, and is then the family's only live one. */
  lemma RotatesIff(steps: seq<Step>, token: nat, now: int, expires: int, disabled: set<Uuid>)
    requires Safe(START, steps)
    ensures var s := Run(START, steps).sessions; var (s', o) := Rotate(s, token, now, expires, disabled);
            && (o.Issued? <==>
                  && token < |s| && IsLastOfFamily(s, token) && !s[token].consumed && !Dead(s, s[token].family)
                  && now <= s[token].expiresAt && s[token].user !in disabled)
            && (o.Issued? ==>
                  && o.token == |s| && |s'| == |s| + 1 && s'[..|s|] == s[token := s[token].(consumed := true)]
                  && s'[|s|].user == s[token].user && s'[|s|].family == s[token].family && s'[|s|].expiresAt == expires
                  && LiveTokens(s', s[token].family) == {|s|})
  {
    RunKeepsInv(START, steps);
    var st := Run(START, steps);
    if token < |st.sessions| { LiveIsLast(st, token); }
    if Rotate(st.sessions, token, now, expires, disabled).1.Issued? {
      StepKeepsInv(st, Refresh(token, now, expires, disabled));
      OnlyTheNewest(Next(st, Refresh(token, now, expires, disabled)), |st.sessions|);
    }
  }

  /** What rotation answers to every other token, and that only reuse changes anything. */
  lemma RefusalAnswers(s: seq<Session>, token: nat, now: int, expires: int, disabled: set<Uuid>)
    ensures var (s', o) := Rotate(s, token, now, expires, disabled);
            && (o == InvalidToken <==> token >= |s|)
            && (o == Reuse <==> token < |s| && !Live(s[token]))
            && (o == Expired <==> token < |s| && Live(s[token]) && s[token].expiresAt < now)
            && (o == AccountDisabled <==>
                  token < |s| && Live(s[token]) && s[token].expiresAt >= now && s[token].user in disabled)
            && (o in {InvalidToken, Expired, AccountDisabled} ==> s' == s)
  {
  }

  /** A login starts a family of its own with one live token for that user. */
  lemma LoginStartsFamily(steps: seq<Step>, user: Uuid, expires: int)
    requires Safe(START, steps)
    ensures var s := Run(START, steps).sessions; var s' := Issue(s, user, None, expires);
            && |s'| == |s| + 1 && s'[..|s|] == s
            && s'[|s|].user == user && s'[|s|].family == |s| && s'[|s|].expiresAt == expires
            && LiveTokens(s', |s|) == {|s|}
  {
    RunKeepsInv(START, steps);
    var st := Run(START, steps);
    StepKeepsInv(st, Login(user, expires));
    OnlyTheNewest(Next(st, Login(user, expires)), |st.sessions|);
  }

  lemma LiveIsLast(st: State, token: nat)
    requires Inv(st) && token < |st.sessions|
    ensures Live(st.sessions[token]) ==>
            IsLastOfFamily(st.sessions, token) && !Dead(st.sessions, st.sessions[token].family)
    ensures !Dead(st.sessions, st.sessions[token].family) ==> !st.sessions[token].revoked
  {
    var s := st.sessions;
    assert Rooted(s, token) && (token in st.replaced ==> Followed(s, token));
    if Live(s[token]) {
      forall i | token < i < |s| ensures s[i].family != s[token].family { assert Linked(s, st.replaced, token, i); }
    }
    if s[token].revoked {
      forall i | 0 <= i < |s| && s[i].family == s[token].family ensures s[i].revoked {
        if i < token { assert Linked(s, st.replaced, i, token); }
        if token < i { assert Linked(s, st.replaced, token, i); }
      }
    }
  }

  lemma OnlyTheNewest(st: State, token: nat)
    requires Inv(st) && token < |st.sessions| && Live(st.sessions[token])
    ensures LiveTokens(st.sessions, st.sessions[token].family) == {token}
  {
    var s, f := st.sessions, st.sessions[token].family;
    AtMostOneLive(st, f);
    assert token in LiveTokens(s, f);
    forall i | i in LiveTokens(s, f) ensures i == token {
      LiveIsLast(st, i);
      LiveIsLast(st, token);
    }
  }

  lemma StepKeepsDead(st: State, step: Step, f: nat)
    requires Dead(st.sessions, f) && SafeStep(st, step)
    ensures Dead(Next(st, step).sessions, f)
  {
  }

  /** A burned family stays burned: no later rotation of any of its tokens ever succeeds. */
  lemma {:induction false} DeadForever(st: State, steps: seq<Step>, f: nat, token: nat, now: int, expires: int,
                                       disabled: set<Uuid>)
    requires Dead(st.sessions, f) && Safe(st, steps)
    ensures var s := Run(st, steps).sessions;
            && Dead(s, f)
            && (token < |s| && s[token].family == f ==> Rotate(s, token, now, expires, disabled).1 == Reuse)
    decreases |steps|
  {
    if steps != [] {
      StepKeepsDead(st, steps[0], f);
      DeadForever(Next(st, steps[0]), steps[1..], f, token, now, expires, disabled);
    }
  }

  lemma StepKeepsUsed(st: State, step: Step, token: nat)
    requires token < |st.sessions| && st.sessions[token].consumed
    ensures var s := Next(st, step).sessions;
            token < |s| && s[token].consumed && s[token].family == st.sessions[token].family
  {
  }

  /** A token rotates at most once, in every run whatever: after its consumption, showing it burns the
      family, and with it the token that the rotation handed out. */
  lemma {:induction false} UsedTokenIsReuse(st: State, steps: seq<Step>, token: nat, now: int, expires: int,
                                            disabled: set<Uuid>)
    requires token < |st.sessions| && st.sessions[token].consumed
    ensures var f, s := st.sessions[token].family, Run(st, steps).sessions;
            var (s', o) := Rotate(s, token, now, expires, disabled);
            && token < |s| && s[token].family == f && o == Reuse
            && forall i :: 0 <= i < |s| && s[i].family == f ==> s'[i].revoked
    decreases |steps|
  {
    if steps != [] {
      StepKeepsUsed(st, steps[0], token);
      UsedTokenIsReuse(Next(st, steps[0]), steps[1..], token, now, expires, disabled);
    }
  }

  // ---------------------------------------------------------------- the exact boundary

  predicate Burns(s: seq<Session>, step: Step, f: nat) {
    && (step.Logout? || (step.Refresh? && Refusal(s, step.token, step.now, step.disabled) == Some(Reuse)))
    && step.token < |s| && s[step.token].family == f
  }

  /** The step issues the token's successor, or burns its family. */
  predicate Overtakes(st: State, step: Step, token: nat)
    requires token < |st.sessions|
  {
    || (Issues(st, step) && st.pending[step.op].token == token)
    || (Rotates(st, step) && step.token == token)
    || Burns(st.sessions, step, st.sessions[token].family)
  }

  lemma StepOvertakes(st: State, step: Step, token: nat)
    requires token < |st.sessions|
    ensures var st' := Next(st, step);
            && token < |st'.sessions| && st'.sessions[token].family == st.sessions[token].family
            && (token in st'.replaced || st'.sessions[token].revoked <==>
                  token in st.replaced || st.sessions[token].revoked || Overtakes(st, step, token))
  {
  }

  /** Some step of the run does. */
  predicate Overtaken(st: State, steps: seq<Step>, token: nat)
    requires token < |st.sessions|
    decreases |steps|
  {
    steps != [] &&
    (Overtakes(st, steps[0], token) ||
      (token < |Next(st, steps[0]).sessions| && Overtaken(Next(st, steps[0]), steps[1..], token)))
  }

  lemma {:induction false} RunOvertakes(st: State, steps: seq<Step>, token: nat)
    requires token < |st.sessions|
    ensures var st' := Run(st, steps);
            && token < |st'.sessions| && st'.sessions[token].family == st.sessions[token].family
            && (token in st'.replaced || st'.sessions[token].revoked <==>
                  token in st.replaced || st.sessions[token].revoked || Overtaken(st, steps, token))
    decreases |steps|
  {
    if steps != [] {
      StepOvertakes(st, steps[0], token);
      RunOvertakes(Next(st, steps[0]), steps[1..], token);
    }
  }

  /** Whatever follows in time, family f has at most one live token, and stays burned if it was. */
  ghost predicate NeverForks(before: State, after: State, f: nat) {
    forall more :: Safe(after, more) ==>
      && |LiveTokens(Run(after, more).sessions, f)| <= 1
      && (Dead(before.sessions, f) ==> Dead(Run(after, more).sessions, f))
  }

  /** The last token of a family. */
  lemma {:induction false} Head(st: State, t: nat) returns (h: nat)
    requires Inv(st) && t < |st.sessions|
    ensures t <= h < |st.sessions| && st.sessions[h].family == st.sessions[t].family && h !in st.replaced
    decreases |st.sessions| - t
  {
    if t !in st.replaced {
      h := t;
    } else {
      assert Followed(st.sessions, t);
      var j :| t < j < |st.sessions| && st.sessions[j].family == st.sessions[t].family;
      h := Head(st, j);
    }
  }

  lemma TwoElements(a: set<nat>, x: nat, y: nat)
    requires x in a && y in a && x != y
    ensures |a| >= 2
  {
    assert {x, y} <= a;
    assert a == {x, y} + (a - {x, y});
  }

  /** A second successor: the family has two live tokens at once, or as soon as the rotation of its last
      token is finished. */
  lemma SecondSuccessorForks(st: State, op: Uuid, expires: int)
    requires Inv(st) && Issues(st, IssueStep(op, expires))
    requires st.pending[op].token in st.replaced && !st.sessions[st.pending[op].token].revoked
    ensures !NeverForks(st, Next(st, IssueStep(op, expires)), st.sessions[st.pending[op].token].family)
  {
    var t, st', n := st.pending[op].token, Next(st, IssueStep(op, expires)), |st.sessions|;
    var f := st.sessions[t].family;
    var h := Head(st, t);
    assert Linked(st.sessions, st.replaced, t, h);
    if !st.sessions[h].consumed {
      TwoElements(LiveTokens(st'.sessions, f), h, n);
      assert Safe(st', []) && Run(st', []) == st';
    } else {
      assert Awaited(st, h);
      var p :| p in st.pending && st.pending[p] == Rotation(h, true);
      var finish := IssueStep(p, expires);
      assert Issues(st', finish) && SafeStep(st', finish);
      assert [finish][1..] == [] && Safe(Next(st', finish), []);
      assert Safe(st', [finish]) && Run(st', [finish]) == Next(st', finish);
      TwoElements(LiveTokens(Next(st', finish).sessions, f), n, n + 1);
    }
  }

  /** A successor after a burn: the family is alive again. */
  lemma BurnedSuccessorRevives(st: State, op: Uuid, expires: int)
    requires Inv(st) && Issues(st, IssueStep(op, expires)) && st.sessions[st.pending[op].token].revoked
    ensures !NeverForks(st, Next(st, IssueStep(op, expires)), st.sessions[st.pending[op].token].family)
  {
    var t, st', s := st.pending[op].token, Next(st, IssueStep(op, expires)), st.sessions;
    assert Rooted(s, t);
    forall i | 0 <= i < |s| && s[i].family == s[t].family ensures s[i].revoked {
      if i < t { assert Linked(s, st.replaced, i, t); } else if t < i { assert Linked(s, st.replaced, t, i); }
    }
    assert st'.sessions[|s|].family == s[t].family && !st'.sessions[|s|].revoked;
    assert Safe(st', []) && Run(st', []) == st';
  }

  lemma TimelyIssueIff(st: State, op: Uuid, expires: int)
    requires Inv(st) && Issues(st, IssueStep(op, expires))
    ensures var t := st.pending[op].token;
            NeverForks(st, Next(st, IssueStep(op, expires)), st.sessions[t].family) <==>
              t !in st.replaced && !st.sessions[t].revoked
  {
    var step, t := IssueStep(op, expires), st.pending[op].token;
    if st.sessions[t].revoked {
      BurnedSuccessorRevives(st, op, expires);
    } else if t in st.replaced {
      SecondSuccessorForks(st, op, expires);
    } else {
      StepKeepsInv(st, step);
      forall more | Safe(Next(st, step), more)
        ensures |LiveTokens(Run(Next(st, step), more).sessions, st.sessions[t].family)| <= 1
      {
        RunKeepsInv(Next(st, step), more);
        AtMostOneLive(Run(Next(st, step), more), st.sessions[t].family);
      }
    }
  }

  /** The exact condition for the second write of a rotation, over runs. Let a rotation read its token live,
      and be ready to issue the next one after some more steps. Issuing it never gives the family two live
      tokens and never revives a burned family, whatever follows in time, if and only if since the read
      nobody issued another successor of the token and nobody burned its family. */
  lemma RotationSafeIff(before: seq<Step>, read: Step, between: seq<Step>, expires: int)
    requires Safe(START, before) && Reads(Run(START, before), read)
    requires var st := Next(Run(START, before), read); Safe(st, between)
    requires var st := Run(Next(Run(START, before), read), between);
             read.op in st.pending && st.pending[read.op] == Rotation(read.token, true)
    ensures var first := Next(Run(START, before), read);
            var st := Run(first, between);
            && read.token < |first.sessions| && read.token < |st.sessions|
            && (NeverForks(st, Next(st, IssueStep(read.op, expires)), st.sessions[read.token].family) <==>
                  !Overtaken(first, between, read.token))
  {
    var first := Next(Run(START, before), read);
    RunKeepsInv(START, before);
    StepKeepsInv(Run(START, before), read);
    RunKeepsInv(first, between);
    RunOvertakes(first, between, read.token);
    TimelyIssueIff(Run(first, between), read.op, expires);
  }

  // ---------------------------------------------------------------- concrete runs

  const LOGIN := Login(7, 9)
  const FIRST := Session(7, 0, 9, false, false)
  const USED := Session(7, 0, 9, true, false)

  /** Two rotations read the first token before either consumes it. */
  const TWICE := [LOGIN, ReadStep(1, 0, 2, {}), ReadStep(2, 0, 2, {}), ConsumeStep(1), IssueStep(1, 9), ConsumeStep(2)]

  /** The user logs out between the two writes of a rotation. */
  const LOGGED_OUT := [LOGIN, ReadStep(1, 0, 2, {}), ConsumeStep(1), Logout(0)]

  lemma {:induction false} RunLast(st: State, steps: seq<Step>, last: Step)
    ensures Run(st, steps + [last]) == Next(Run(st, steps), last)
    decreases |steps|
  {
    if steps == [] {
      assert [last][1..] == [];
    } else {
      assert (steps + [last])[1..] == steps[1..] + [last];
      RunLast(Next(st, steps[0]), steps[1..], last);
    }
  }

  /** One step at the end of a run whose state is known. */
  lemma RunTo(steps: seq<Step>, st: State, last: Step, longer: seq<Step>)
    requires Run(START, steps) == st && longer == steps + [last]
    ensures Run(START, longer) == Next(st, last)
  {
    RunLast(START, steps, last);
  }

  lemma TwiceRun()
    ensures Run(START, TWICE) == State([USED, FIRST], map[2 := Rotation(0, true)], {0})
  {
    RunTo([], START, LOGIN, TWICE[..1]);
    RunTo(TWICE[..1], State([FIRST], map[], {}), TWICE[1], TWICE[..2]);
    RunTo(TWICE[..2], State([FIRST], map[1 := Rotation(0, false)], {}), TWICE[2], TWICE[..3]);
    RunTo(TWICE[..3], State([FIRST], map[1 := Rotation(0, false), 2 := Rotation(0, false)], {}), TWICE[3], TWICE[..4]);
    RunTo(TWICE[..4], State([USED], map[1 := Rotation(0, true), 2 := Rotation(0, false)], {}), TWICE[4], TWICE[..5]);
    RunTo(TWICE[..5], State([USED, FIRST], map[2 := Rotation(0, false)], {0}), TWICE[5], TWICE);
  }

  lemma LoggedOutRun()
    ensures Run(START, LOGGED_OUT) == State([USED.(revoked := true)], map[1 := Rotation(0, true)], {})
  {
    RunTo([], START, LOGIN, LOGGED_OUT[..1]);
    RunTo(LOGGED_OUT[..1], State([FIRST], map[], {}), LOGGED_OUT[1], LOGGED_OUT[..2]);
    RunTo(LOGGED_OUT[..2], State([FIRST], map[1 := Rotation(0, false)], {}), LOGGED_OUT[2], LOGGED_OUT[..3]);
    RunTo(LOGGED_OUT[..3], State([USED], map[1 := Rotation(0, true)], {}), LOGGED_OUT[3], LOGGED_OUT);
  }

  /** Runs in which the second write comes too late: after another rotation of the same token, which leaves
      two live tokens, and after a logout, which leaves a burned family with a token that rotates. */
  lemma OverlappingRotations()
    ensures LiveTokens(Next(Run(START, TWICE), IssueStep(2, 9)).sessions, 0) == {1, 2}
    ensures Dead(Run(START, LOGGED_OUT).sessions, 0)
    ensures Rotate(Next(Run(START, LOGGED_OUT), IssueStep(1, 9)).sessions, 1, 2, 9, {}).1 == Issued(2)
  {
    TwiceRun();
    LoggedOutRun();
    assert Next(Run(START, TWICE), IssueStep(2, 9)).sessions == [USED, FIRST, FIRST];
    assert Next(Run(START, LOGGED_OUT), IssueStep(1, 9)).sessions == [USED.(revoked := true), FIRST];
  }

  // ---------------------------------------------------------------- the service

  class TokenService {
    const refreshTtl: nat
    var sessions: seq<Session>

    constructor (refreshTtl: nat)
      ensures sessions == [] && this.refreshTtl == refreshTtl
    {
      this.refreshTtl := refreshTtl;
      sessions := [];
    }

    method IssueToken(user: Uuid, family: Option<nat>, now: int) returns (token: nat)
      modifies this
      ensures sessions == Issue(old(sessions), user, family, now + refreshTtl) && token == |old(sessions)|
    {
      token := |sessions|;
      sessions := sessions +
        [Session(user, if family.Some? then family.value else token, now + refreshTtl, false, false)];
    }

    /** Revokes the sessions of a family that are not revoked yet. */
    method RevokeFamily(family: nat)
      modifies this
      ensures sessions == Burn(old(sessions), family)
    {
      var i := 0;
      while i < |sessions|
        invariant 0 <= i <= |sessions| == |old(sessions)|
        invariant forall k :: 0 <= k < i ==> sessions[k] == Burn(old(sessions), family)[k]
        invariant forall k :: i <= k < |sessions| ==> sessions[k] == old(sessions)[k]
      {
        if sessions[i].family == family && !sessions[i].revoked {
          sessions := sessions[i := sessions[i].(revoked := true)];
        }
        i := i + 1;
      }
    }

    method RotateToken(token: nat, now: int, disabled: set<Uuid>) returns (o: Outcome)
      modifies this
      ensures (sessions, o) == Rotate(old(sessions), token, now, now + refreshTtl, disabled)
    {
      if token >= |sessions| { return InvalidToken; }
      var session := sessions[token];
      if session.revoked || session.consumed {
        RevokeFamily(session.family);
        return Reuse;
      }
      if session.expiresAt < now { return Expired; }
      if session.user in disabled { return AccountDisabled; }
      sessions := sessions[token := session.(consumed := true)];
      var next := IssueToken(session.user, Some(session.family), now);
      return Issued(next);
    }

    method Revoke(token: nat)
      modifies this
      ensures sessions == RevokeByToken(old(sessions), token)
    {
      if token >= |sessions| { return; }
      RevokeFamily(sessions[token].family);
    }
  }
}
