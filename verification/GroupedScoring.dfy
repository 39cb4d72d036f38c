/**
 Scoring all predictions of a match: identical picks are grouped under a joined text key, each
 group is scored once and written with one bulk update.
 */
module GroupedScoring {
  import opened Ledger
  import opened Markets

  /** A prediction row with the match and the tier of its slot. */
  datatype Prediction = Prediction(id: Uuid, entry: Uuid, matchId: Uuid, tier: Tier, market: Market, selection: string)

  datatype Group = Group(ids: seq<Uuid>, score: Score)

  /** Points of a market under a rule set; a market without a rule is worth nothing. */
  function PointsFor(points: map<Market, int>, m: Market): int {
    if m in points then points[m] else 0
  }

  /** What scoring one prediction alone gives. */
  function DirectScore(p: Prediction, r: FinalResult, points: map<Market, int>): Score {
    ScorePrediction(p.market, p.selection, r, PointsFor(points, p.market))
  }

  predicate Won(p: Prediction, r: FinalResult) { p.selection in Winners(p.market, r) }

  /** What a pick earns, read off the goals: the rule's points if it won, and nothing if it lost or its
      market has no rule. */
  function Earned(p: Prediction, r: FinalResult, points: map<Market, int>): Score {
    Score(Won(p, r), if Won(p, r) && p.market in points then points[p.market] else 0)
  }

  predicate ValidPick(p: Prediction) { IsValidSelection(p.market, p.selection) }

  lemma DirectIsEarned(p: Prediction, r: FinalResult, points: map<Market, int>)
    requires ValidPick(p)
    ensures DirectScore(p, r, points) == Earned(p, r, points)
  {
    PickEarns(p.market, p.selection, r, PointsFor(points, p.market));
  }

  function GroupKey(m: Market, s: string): string {
    MarketName(m) + "|" + s
  }

  function KeyOf(p: Prediction): string { GroupKey(p.market, p.selection) }

  lemma {:induction false} NameHasNoSeparator(m: Market)
    ensures '|' !in MarketName(m)
  {
  }

  lemma NamesDiffer(m1: Market, m2: Market)
    requires MarketName(m1) == MarketName(m2)
    ensures m1 == m2
  {
  }

  /** The separator of a joined key is its first one. */
  lemma SeparatorPlace(m: Market, s: string)
    ensures var k, n := GroupKey(m, s), |MarketName(m)|;
            && n < |k| && k[n] == '|' && (forall i :: 0 <= i < n ==> k[i] != '|')
            && k[..n] == MarketName(m) && k[n + 1..] == s
  {
    var n := MarketName(m);
    NameHasNoSeparator(m);
    forall i | 0 <= i < |n| ensures GroupKey(m, s)[i] != '|' {
      assert GroupKey(m, s)[i] == n[i] && n[i] in n;
    }
  }

  /** The joined key determines the pick, whatever characters a selection contains, because no
      market name contains the separator. */
  lemma GroupKeyInjective(m1: Market, s1: string, m2: Market, s2: string)
    requires GroupKey(m1, s1) == GroupKey(m2, s2)
    ensures m1 == m2 && s1 == s2
  {
    SeparatorPlace(m1, s1);
    SeparatorPlace(m2, s2);
    assert |MarketName(m1)| == |MarketName(m2)|;
    NamesDiffer(m1, m2);
  }

  predicate DistinctIds(ps: seq<Prediction>) {
    forall i, j :: 0 <= i < j < |ps| ==> ps[i].id != ps[j].id
  }

  /** A group holds the ids of exactly the predictions with its key, scored like each of them. */
  ghost predicate Grouped(ps: seq<Prediction>, groups: map<string, Group>, key: Prediction -> string,
                          score: Prediction -> Score) {
    AllPlaced(ps, groups, key, score) && NoStrangers(ps, groups, key) && NoEmptyGroup(ps, groups, key)
  }

  ghost predicate AllPlaced(ps: seq<Prediction>, groups: map<string, Group>, key: Prediction -> string,
                            score: Prediction -> Score) {
    forall p :: p in ps ==> Placed(groups, key(p), p.id, score(p))
  }

  predicate Placed(groups: map<string, Group>, k: string, id: Uuid, score: Score) {
    k in groups && id in groups[k].ids && groups[k].score == score
  }

  ghost predicate NoStrangers(ps: seq<Prediction>, groups: map<string, Group>, key: Prediction -> string) {
    forall k, id :: k in groups && id in groups[k].ids ==> HasMember(ps, key, k, id)
  }

  ghost predicate NoEmptyGroup(ps: seq<Prediction>, groups: map<string, Group>, key: Prediction -> string) {
    forall k :: k in groups ==> HasKey(ps, key, k)
  }

  ghost predicate HasMember(ps: seq<Prediction>, key: Prediction -> string, k: string, id: Uuid) {
    exists p :: p in ps && p.id == id && key(p) == k
  }

  ghost predicate HasKey(ps: seq<Prediction>, key: Prediction -> string, k: string) {
    exists p :: p in ps && key(p) == k
  }

  function WithMember(groups: map<string, Group>, k: string, id: Uuid, score: Score): map<string, Group> {
    groups[k := if k in groups then Group(groups[k].ids + [id], groups[k].score) else Group([id], score)]
  }

  lemma PlaceOne(ps: seq<Prediction>, p: Prediction, groups: map<string, Group>, key: Prediction -> string,
                 score: Prediction -> Score)
    requires AllPlaced(ps, groups, key, score) && NoEmptyGroup(ps, groups, key)
    requires forall q :: q in ps && key(q) == key(p) ==> score(q) == score(p)
    ensures AllPlaced(ps + [p], WithMember(groups, key(p), p.id, score(p)), key, score)
  {
    var k, after := key(p), WithMember(groups, key(p), p.id, score(p));
    if k in groups {
      var q :| q in ps && key(q) == k by { assert HasKey(ps, key, k); }
      assert Placed(groups, k, q.id, score(q));
    }
    forall q | q in ps + [p] ensures Placed(after, key(q), q.id, score(q)) {
      if q in ps { assert Placed(groups, key(q), q.id, score(q)); }
    }
  }

  lemma MemberOne(ps: seq<Prediction>, p: Prediction, groups: map<string, Group>, key: Prediction -> string,
                  score: Score)
    requires NoStrangers(ps, groups, key)
    ensures NoStrangers(ps + [p], WithMember(groups, key(p), p.id, score), key)
  {
    var after := WithMember(groups, key(p), p.id, score);
    assert p in ps + [p];
    forall k, id | k in after && id in after[k].ids ensures HasMember(ps + [p], key, k, id) {
      if k in groups && id in groups[k].ids {
        var q :| q in ps && q.id == id && key(q) == k by { assert HasMember(ps, key, k, id); }
        assert q in ps + [p];
      }
    }
  }

  lemma KeyOne(ps: seq<Prediction>, p: Prediction, groups: map<string, Group>, key: Prediction -> string, score: Score)
    requires NoEmptyGroup(ps, groups, key)
    ensures NoEmptyGroup(ps + [p], WithMember(groups, key(p), p.id, score), key)
  {
    var after := WithMember(groups, key(p), p.id, score);
    assert p in ps + [p];
    forall k | k in after ensures HasKey(ps + [p], key, k) {
      if k in groups {
        var q :| q in ps && key(q) == k by { assert HasKey(ps, key, k); }
        assert q in ps + [p];
      }
    }
  }

  lemma GroupOne(ps: seq<Prediction>, p: Prediction, groups: map<string, Group>, key: Prediction -> string,
                 score: Prediction -> Score)
    requires Grouped(ps, groups, key, score)
    requires forall q :: q in ps && key(q) == key(p) ==> score(q) == score(p)
    ensures Grouped(ps + [p], WithMember(groups, key(p), p.id, score(p)), key, score)
  {
    PlaceOne(ps, p, groups, key, score);
    MemberOne(ps, p, groups, key, score(p));
    KeyOne(ps, p, groups, key, score(p));
  }

  lemma SameKeySameScore(p: Prediction, q: Prediction, r: FinalResult, points: map<Market, int>)
    requires KeyOf(p) == KeyOf(q)
    ensures DirectScore(p, r, points) == DirectScore(q, r, points)
  {
    GroupKeyInjective(p.market, p.selection, q.market, q.selection);
  }

  /** The groups of the predictions, added one by one. */
  function GroupsOf(ps: seq<Prediction>, r: FinalResult, points: map<Market, int>): map<string, Group> {
    if ps == [] then map[]
    else
      var p := ps[|ps| - 1];
      WithMember(GroupsOf(ps[..|ps| - 1], r, points), KeyOf(p), p.id, DirectScore(p, r, points))
  }

  /** The same for any key and any score. */
  ghost function GroupsBy(ps: seq<Prediction>, key: Prediction -> string,
                          score: Prediction -> Score): map<string, Group> {
    if ps == [] then map[]
    else
      var p := ps[|ps| - 1];
      WithMember(GroupsBy(ps[..|ps| - 1], key, score), key(p), p.id, score(p))
  }

  ghost predicate KeyDecides(ps: seq<Prediction>, key: Prediction -> string, score: Prediction -> Score) {
    forall p, q :: p in ps && q in ps && key(p) == key(q) ==> score(p) == score(q)
  }

  lemma {:induction false} GroupsByGrouped(ps: seq<Prediction>, key: Prediction -> string, score: Prediction -> Score)
    requires KeyDecides(ps, key, score)
    ensures Grouped(ps, GroupsBy(ps, key, score), key, score)
  {
    if ps != [] {
      var rest, p := ps[..|ps| - 1], ps[|ps| - 1];
      GroupsByGrouped(rest, key, score);
      GroupOne(rest, p, GroupsBy(rest, key, score), key, score);
      assert ps == rest + [p];
    }
  }

  lemma {:induction false} GroupsOfIsGroupsBy(ps: seq<Prediction>, r: FinalResult, points: map<Market, int>,
                                              score: Prediction -> Score)
    requires forall p :: score(p) == DirectScore(p, r, points)
    ensures GroupsOf(ps, r, points) == GroupsBy(ps, KeyOf, score)
  {
    if ps != [] { GroupsOfIsGroupsBy(ps[..|ps| - 1], r, points, score); }
  }

  lemma GroupsAreGrouped(ps: seq<Prediction>, r: FinalResult, points: map<Market, int>, score: Prediction -> Score)
    requires forall p :: score(p) == DirectScore(p, r, points)
    ensures Grouped(ps, GroupsOf(ps, r, points), KeyOf, score)
  {
    GroupsOfIsGroupsBy(ps, r, points, score);
    forall p, q | p in ps && q in ps && KeyOf(p) == KeyOf(q)
      ensures score(p) == score(q)
    {
      SameKeySameScore(p, q, r, points);
    }
    GroupsByGrouped(ps, KeyOf, score);
  }

  predicate DistinctKeys(keys: seq<string>) {
    forall i, j :: 0 <= i < j < |keys| ==> keys[i] != keys[j]
  }

  /** `keys` lists the keys of the groups, each once. */
  ghost predicate ListsKeys(keys: seq<string>, groups: map<string, Group>) {
    DistinctKeys(keys) && forall k :: k in keys <==> k in groups
  }

  /** Puts one prediction into its group, scoring it only if it opens the group. */
  method AddToGroup(keys: seq<string>, groups: map<string, Group>, key: string, p: Prediction, r: FinalResult,
                    points: map<Market, int>)
    returns (keys': seq<string>, groups': map<string, Group>)
    requires ListsKeys(keys, groups)
    ensures groups' == WithMember(groups, key, p.id, DirectScore(p, r, points)) && ListsKeys(keys', groups')
  {
    if key !in groups {
      groups' := groups[key := Group([p.id], ScorePrediction(p.market, p.selection, r, PointsFor(points, p.market)))];
      keys' := keys + [key];
    } else {
      groups' := groups[key := groups[key].(ids := groups[key].ids + [p.id])];
      keys' := keys;
    }
  }

  lemma NextGroups(ps: seq<Prediction>, i: nat, r: FinalResult, points: map<Market, int>)
    requires i < |ps|
    ensures GroupsOf(ps[..i + 1], r, points) ==
            WithMember(GroupsOf(ps[..i], r, points), KeyOf(ps[i]), ps[i].id, DirectScore(ps[i], r, points))
  {
    assert ps[..i + 1][..i] == ps[..i];
  }

  /** Groups identical picks; `keys` is the insertion order of the groups. */
  method GroupPredictions(ps: seq<Prediction>, r: FinalResult, points: map<Market, int>)
    returns (keys: seq<string>, groups: map<string, Group>)
    ensures groups == GroupsOf(ps, r, points)
    ensures ListsKeys(keys, groups)
  {
    keys, groups := [], map[];
    var i := 0;
    while i < |ps|
      invariant 0 <= i <= |ps|
      invariant groups == GroupsOf(ps[..i], r, points)
      invariant ListsKeys(keys, groups)
    {
      NextGroups(ps, i, r, points);
      keys, groups := AddToGroup(keys, groups, KeyOf(ps[i]), ps[i], r, points);
      i := i + 1;
    }
    assert ps[..i] == ps;
  }

  /** Groups of one prediction set never share a prediction. */
  lemma MemberHasItsKey(ps: seq<Prediction>, groups: map<string, Group>, key: Prediction -> string,
                        score: Prediction -> Score, k: string, p: Prediction)
    requires DistinctIds(ps) && Grouped(ps, groups, key, score) && p in ps && k in groups && p.id in groups[k].ids
    ensures k == key(p) && groups[k].score == score(p)
  {
    assert HasMember(ps, key, k, p.id);
    assert Placed(groups, key(p), p.id, score(p));
  }

  ghost predicate InSomeGroup(keys: seq<string>, groups: map<string, Group>, n: nat, id: Uuid)
    requires n <= |keys| && forall k :: k in keys ==> k in groups
  {
    exists m :: 0 <= m < n && id in groups[keys[m]].ids
  }

  ghost predicate IsPrediction(ps: seq<Prediction>, id: Uuid) { exists p :: p in ps && p.id == id }

  lemma GroupsCover(ps: seq<Prediction>, keys: seq<string>, groups: map<string, Group>, key: Prediction -> string,
                    score: Prediction -> Score, id: Uuid)
    requires Grouped(ps, groups, key, score) && ListsKeys(keys, groups)
    ensures InSomeGroup(keys, groups, |keys|, id) <==> IsPrediction(ps, id)
  {
    if m :| 0 <= m < |keys| && id in groups[keys[m]].ids {
      assert keys[m] in keys;
      assert HasMember(ps, key, keys[m], id);
    }
    if p :| p in ps && p.id == id {
      assert Placed(groups, key(p), id, score(p));
      assert key(p) in keys;
      var n :| 0 <= n < |keys| && keys[n] == key(p);
      assert id in groups[keys[n]].ids;
    }
  }

  lemma OneMoreGroup(keys: seq<string>, groups: map<string, Group>, n: nat, id: Uuid)
    requires n < |keys| && forall k :: k in keys ==> k in groups
    ensures keys[n] in groups
    ensures InSomeGroup(keys, groups, n + 1, id) <==> InSomeGroup(keys, groups, n, id) || id in groups[keys[n]].ids
  {
    assert keys[n] in keys;
  }

  /** The bulk updates of the first `n` groups are written. */
  ghost predicate Written(ps: seq<Prediction>, keys: seq<string>, groups: map<string, Group>,
                          score: Prediction -> Score, n: nat, written: map<Uuid, Score>)
    requires n <= |keys| && forall k :: k in keys ==> k in groups
  {
    && (forall id :: id in written <==> InSomeGroup(keys, groups, n, id))
    && forall p :: p in ps && p.id in written ==> written[p.id] == score(p)
  }

  /** One bulk update. */
  function Update(written: map<Uuid, Score>, group: Group): (r: map<Uuid, Score>)
    ensures forall id :: id in r <==> id in written || id in group.ids
    ensures forall id :: id in r ==> r[id] == if id in group.ids then group.score else written[id]
  {
    written + map id | id in group.ids :: group.score
  }

  /** Every prediction named by the group has the group's score. */
  ghost predicate ScoresItsMembers(ps: seq<Prediction>, group: Group, score: Prediction -> Score) {
    forall p :: p in ps && p.id in group.ids ==> group.score == score(p)
  }

  lemma GroupScoresItsMembers(ps: seq<Prediction>, groups: map<string, Group>, key: Prediction -> string,
                              score: Prediction -> Score, k: string)
    requires DistinctIds(ps) && Grouped(ps, groups, key, score) && k in groups
    ensures ScoresItsMembers(ps, groups[k], score)
  {
    forall p | p in ps && p.id in groups[k].ids
      ensures groups[k].score == score(p)
    {
      MemberHasItsKey(ps, groups, key, score, k, p);
    }
  }

  lemma WriteOne(ps: seq<Prediction>, keys: seq<string>, groups: map<string, Group>, score: Prediction -> Score,
                 n: nat, written: map<Uuid, Score>)
    requires n < |keys| && (forall k :: k in keys ==> k in groups) && keys[n] in groups
    requires ScoresItsMembers(ps, groups[keys[n]], score) && Written(ps, keys, groups, score, n, written)
    ensures Written(ps, keys, groups, score, n + 1, Update(written, groups[keys[n]]))
  {
    var after := Update(written, groups[keys[n]]);
    forall id ensures id in after <==> InSomeGroup(keys, groups, n + 1, id) { OneMoreGroup(keys, groups, n, id); }
  }

  /** One bulk update per group. */
  method WriteGroups(ghost ps: seq<Prediction>, keys: seq<string>, groups: map<string, Group>,
                     ghost key: Prediction -> string, ghost score: Prediction -> Score)
    returns (written: map<Uuid, Score>, statements: nat)
    requires DistinctIds(ps) && Grouped(ps, groups, key, score) && ListsKeys(keys, groups)
    ensures forall id :: id in written <==> IsPrediction(ps, id)
    ensures forall p :: p in ps && p.id in written ==> written[p.id] == score(p)
    ensures statements == |keys|
  {
    written, statements := map[], 0;
    while statements < |keys|
      invariant 0 <= statements <= |keys| && Written(ps, keys, groups, score, statements, written)
    {
      assert keys[statements] in keys;
      GroupScoresItsMembers(ps, groups, key, score, keys[statements]);
      WriteOne(ps, keys, groups, score, statements, written);
      written := Update(written, groups[keys[statements]]);
      statements := statements + 1;
    }
    forall id ensures id in written <==> IsPrediction(ps, id) { GroupsCover(ps, keys, groups, key, score, id); }
  }

  lemma {:induction false} DistinctCount(keys: seq<string>)
    requires DistinctKeys(keys)
    ensures |Members(keys)| == |keys|
  {
    if keys == [] {
      assert Members(keys) == {};
    } else {
      var rest := keys[1..];
      assert forall i :: 0 <= i < |rest| ==> rest[i] == keys[i + 1];
      DistinctCount(rest);
      assert keys[0] !in rest;
      assert forall k :: k in keys <==> k == keys[0] || k in rest;
      assert Members(keys) == {keys[0]} + Members(rest);
    }
  }

  ghost function Members(keys: seq<string>): set<string> { set k | k in keys }

  /** The distinct keys of the predictions. */
  ghost function AllKeys(ps: seq<Prediction>, key: Prediction -> string): set<string> { set p | p in ps :: key(p) }

  lemma OneKeyPerPick(ps: seq<Prediction>, keys: seq<string>, groups: map<string, Group>, key: Prediction -> string,
                      score: Prediction -> Score)
    requires Grouped(ps, groups, key, score) && ListsKeys(keys, groups)
    ensures |keys| == |AllKeys(ps, key)|
  {
    DistinctCount(keys);
    forall k | k in keys ensures k in AllKeys(ps, key) { assert HasKey(ps, key, k); }
    assert Members(keys) == AllKeys(ps, key);
  }

  /** Scores every prediction with one bulk update per group: the same rows that scoring each
      prediction alone would write, with one statement per distinct pick. */
  method ScoreGrouped(ps: seq<Prediction>, r: FinalResult, points: map<Market, int>)
    returns (written: map<Uuid, Score>, statements: nat)
    requires DistinctIds(ps)
    ensures forall id :: id in written <==> IsPrediction(ps, id)
    ensures forall p :: p in ps && p.id in written ==> written[p.id] == DirectScore(p, r, points)
    ensures forall p :: p in ps && p.id in written && ValidPick(p) ==> written[p.id] == Earned(p, r, points)
    ensures statements == |AllKeys(ps, KeyOf)|
  {
    var keys, groups := GroupPredictions(ps, r, points);
    ghost var score := p => DirectScore(p, r, points);
    GroupsAreGrouped(ps, r, points, score);
    written, statements := WriteGroups(ps, keys, groups, KeyOf, score);
    OneKeyPerPick(ps, keys, groups, KeyOf, score);
    forall p | ValidPick(p) ensures DirectScore(p, r, points) == Earned(p, r, points) { DirectIsEarned(p, r, points); }
  }
}
