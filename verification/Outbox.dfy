/**
 The transactional outbox: a result and its event row are written in one commit; a relay publishes
 unpublished rows in batches, oldest first, and marks each row after the queue has taken it.
 */
module Outbox {
  import opened Ledger

  const BATCH: nat := 100

  /** A row's identifier is its position: rows are read in the order of their creation. */
  datatype Row = Row(fixture: Uuid, published: bool, attempts: nat)

  /** `added` collects the rows whose job the queue has taken at least once. */
  datatype Bus = Bus(finalized: set<Uuid>, rows: seq<Row>, added: set<nat>)

  /** What can happen to one row in a tick: all is well, the queue refuses the job, the mark fails
      after the queue has taken the job, or the process dies after or before that. */
  datatype Delivery = Published | QueueDown | MarkFailed | DiedAfterAdd | DiedBeforeAdd

  // ---------------------------------------------------------------- commits

  /** A fixture is finalized once; the event row is part of the same commit. */
  function FinalizeFixture(b: Bus, fixture: Uuid): Bus {
    if fixture in b.finalized then b
    else b.(finalized := b.finalized + {fixture}, rows := b.rows + [Row(fixture, false, 0)])
  }

  /** The first `limit` unpublished rows from position `i` on. */
  function Batch(rows: seq<Row>, i: nat, limit: nat): seq<nat>
    requires i <= |rows|
    decreases |rows| - i
  {
    if limit == 0 || i == |rows| then []
    else if rows[i].published then Batch(rows, i + 1, limit)
    else [i] + Batch(rows, i + 1, limit - 1)
  }

  function PublishOne(b: Bus, id: nat, d: Delivery): Bus
    requires id < |b.rows|
  {
    var row := b.rows[id];
    match d
    case Published => b.(added := b.added + {id}, rows := b.rows[id := row.(published := true)])
    case QueueDown => b.(rows := b.rows[id := row.(attempts := row.attempts + 1)])
    case MarkFailed => b.(added := b.added + {id}, rows := b.rows[id := row.(attempts := row.attempts + 1)])
    case DiedAfterAdd => b.(added := b.added + {id})
    case DiedBeforeAdd => b
  }

  predicate Dies(d: Delivery) { d in {DiedAfterAdd, DiedBeforeAdd} }

  predicate InRange(ids: seq<nat>, n: nat) { forall k :: 0 <= k < |ids| ==> ids[k] < n }

  function PublishAll(b: Bus, ids: seq<nat>, world: nat -> Delivery): (r: Bus)
    requires InRange(ids, |b.rows|)
    ensures |r.rows| == |b.rows|
    decreases |ids|
  {
    if ids == [] then b
    else
      var b' := PublishOne(b, ids[0], world(ids[0]));
      if Dies(world(ids[0])) then b' else PublishAll(b', ids[1..], world)
  }

  predicate AllWaiting(rows: seq<Row>, ids: seq<nat>)
    requires InRange(ids, |rows|)
  {
    forall k :: 0 <= k < |ids| ==> !rows[ids[k]].published
  }

  predicate Ascending(ids: seq<nat>, from: nat) {
    (forall k :: 0 <= k < |ids| ==> from <= ids[k]) && forall m, n :: 0 <= m < n < |ids| ==> ids[m] < ids[n]
  }

  lemma {:induction false} BatchFacts(rows: seq<Row>, i: nat, limit: nat)
    requires i <= |rows|
    ensures InRange(Batch(rows, i, limit), |rows|) && AllWaiting(rows, Batch(rows, i, limit)) &&
            Ascending(Batch(rows, i, limit), i)
    ensures |Batch(rows, i, limit)| == if limit <= Backlog(rows, i) then limit else Backlog(rows, i)
    decreases |rows| - i
  {
    if limit > 0 && i < |rows| {
      BatchFacts(rows, i + 1, if rows[i].published then limit else limit - 1);
      if !rows[i].published { assert Batch(rows, i, limit)[1..] == Batch(rows, i + 1, limit - 1); }
    }
  }

  function Tick(b: Bus, world: nat -> Delivery): Bus {
    BatchFacts(b.rows, 0, BATCH);
    PublishAll(b, Batch(b.rows, 0, BATCH), world)
  }

  // ---------------------------------------------------------------- runs

  datatype Step = ResultStep(fixture: Uuid) | TickStep(world: nat -> Delivery)

  function Next(b: Bus, step: Step): Bus {
    match step
    case ResultStep(fixture) => FinalizeFixture(b, fixture)
    case TickStep(world) => Tick(b, world)
  }

  function Run(b: Bus, steps: seq<Step>): Bus
    decreases |steps|
  {
    if steps == [] then b else Run(Next(b, steps[0]), steps[1..])
  }

  const START := Bus({}, [], {})

  ghost function Fixtures(rows: seq<Row>): set<Uuid> { set r | r in rows :: r.fixture }

  /** Finalized fixtures and event rows match one to one; a published row has been taken by the queue. */
  ghost predicate Inv(b: Bus) {
    && Fixtures(b.rows) == b.finalized
    && (forall i, j :: 0 <= i < j < |b.rows| ==> b.rows[i].fixture != b.rows[j].fixture)
    && forall i :: 0 <= i < |b.rows| && b.rows[i].published ==> i in b.added
  }

  predicate SameFixtures(rows: seq<Row>, rows': seq<Row>) {
    |rows| == |rows'| && forall i :: 0 <= i < |rows| ==> rows[i].fixture == rows'[i].fixture
  }

  lemma FixturesSame(rows: seq<Row>, rows': seq<Row>)
    requires SameFixtures(rows, rows')
    ensures Fixtures(rows') == Fixtures(rows)
  {
  }

  lemma FinalizeKeeps(b: Bus, fixture: Uuid)
    requires Inv(b)
    ensures Inv(FinalizeFixture(b, fixture))
  {
  }

  lemma {:induction false} PublishKeeps(b: Bus, ids: seq<nat>, world: nat -> Delivery)
    requires Inv(b) && InRange(ids, |b.rows|)
    ensures Inv(PublishAll(b, ids, world))
    decreases |ids|
  {
    if ids != [] {
      var b' := PublishOne(b, ids[0], world(ids[0]));
      FixturesSame(b.rows, b'.rows);
      if !Dies(world(ids[0])) { PublishKeeps(b', ids[1..], world); }
    }
  }

  lemma {:induction false} RunKeepsInv(b: Bus, steps: seq<Step>)
    requires Inv(b)
    ensures Inv(Run(b, steps))
    decreases |steps|
  {
    if steps != [] {
      match steps[0] {
        case ResultStep(fixture) => FinalizeKeeps(b, fixture);
        case TickStep(world) =>
          BatchFacts(b.rows, 0, BATCH);
          PublishKeeps(b, Batch(b.rows, 0, BATCH), world);
      }
      RunKeepsInv(Next(b, steps[0]), steps[1..]);
    }
  }

  /** Whatever fails and whenever the relay dies: a fixture is finalized exactly when it has an event
      row, it has no more than one, and no row is marked whose job the queue never took. */
  lemma EveryResultHasItsEvent(steps: seq<Step>, fixture: Uuid)
    ensures var b := Run(START, steps);
            && (fixture in b.finalized <==> exists i :: 0 <= i < |b.rows| && b.rows[i].fixture == fixture)
            && (forall i, j :: 0 <= i < j < |b.rows| ==> b.rows[i].fixture != b.rows[j].fixture)
            && forall i :: 0 <= i < |b.rows| && i !in b.added ==> !b.rows[i].published
  {
    RunKeepsInv(START, steps);
    var b := Run(START, steps);
    if fixture in b.finalized {
      var r :| r in b.rows && r.fixture == fixture;
      var i :| 0 <= i < |b.rows| && b.rows[i] == r;
    }
    if i :| 0 <= i < |b.rows| && b.rows[i].fixture == fixture { assert b.rows[i] in b.rows; }
  }

  // ---------------------------------------------------------------- progress

  function Backlog(rows: seq<Row>, i: nat): nat
    requires i <= |rows|
    decreases |rows| - i
  {
    if i == |rows| then 0 else (if rows[i].published then 0 else 1) + Backlog(rows, i + 1)
  }

  lemma {:induction false} MarkShrinks(rows: seq<Row>, id: nat, i: nat)
    requires id < |rows| && i <= |rows| && !rows[id].published
    ensures Backlog(rows[id := rows[id].(published := true)], i) == Backlog(rows, i) - if i <= id then 1 else 0
    decreases |rows| - i
  {
    if i < |rows| { MarkShrinks(rows, id, i + 1); }
  }

  lemma {:induction false} CleanPublish(b: Bus, ids: seq<nat>, world: nat -> Delivery)
    requires InRange(ids, |b.rows|) && AllWaiting(b.rows, ids) && Ascending(ids, 0)
    requires forall id :: world(id) == Published
    ensures Backlog(PublishAll(b, ids, world).rows, 0) == Backlog(b.rows, 0) - |ids|
    decreases |ids|
  {
    if ids != [] {
      MarkShrinks(b.rows, ids[0], 0);
      CleanPublish(PublishOne(b, ids[0], Published), ids[1..], world);
    }
  }

  /** A tick without failures takes a full batch off the backlog, or all of it. */
  lemma CleanTick(b: Bus, world: nat -> Delivery)
    requires forall id :: world(id) == Published
    ensures Backlog(Tick(b, world).rows, 0) == if BATCH <= Backlog(b.rows, 0) then Backlog(b.rows, 0) - BATCH else 0
  {
    BatchFacts(b.rows, 0, BATCH);
    CleanPublish(b, Batch(b.rows, 0, BATCH), world);
  }

  // ---------------------------------------------------------------- rows that keep failing

  /** Unpublished rows in `[i, end)`. */
  function Waiting(rows: seq<Row>, i: nat, end: nat): nat
    requires i <= end <= |rows|
    decreases end - i
  {
    if i == end then 0 else (if rows[i].published then 0 else 1) + Waiting(rows, i + 1, end)
  }

  /** A row is in the batch exactly when it is unpublished and fewer unpublished rows are older than the
      batch is long. */
  lemma {:induction false} InBatchIff(rows: seq<Row>, i: nat, limit: nat, id: nat)
    requires i <= id < |rows|
    ensures id in Batch(rows, i, limit) <==> !rows[id].published && Waiting(rows, i, id) < limit
    decreases |rows| - i
  {
    if limit > 0 {
      var limit' := if rows[i].published then limit else limit - 1;
      if i == id {
        BatchFacts(rows, i + 1, limit');
        assert id !in Batch(rows, i + 1, limit');
      } else {
        InBatchIff(rows, i + 1, limit', id);
      }
    }
  }

  ghost function WaitingRows(rows: seq<Row>, i: nat, end: nat): set<nat> {
    set j: nat | i <= j < end && j < |rows| && !rows[j].published
  }

  lemma {:induction false} WaitingIsCount(rows: seq<Row>, i: nat, end: nat)
    requires i <= end <= |rows|
    ensures |WaitingRows(rows, i, end)| == Waiting(rows, i, end)
    decreases end - i
  {
    if i == end {
      assert WaitingRows(rows, i, end) == {};
    } else {
      WaitingIsCount(rows, i + 1, end);
      assert WaitingRows(rows, i, end) == WaitingRows(rows, i + 1, end) + if rows[i].published then {} else {i};
    }
  }

  lemma SmallerSet(a: set<nat>, b: set<nat>)
    requires a <= b
    ensures |a| <= |b|
  {
    assert b == a + (b - a);
  }

  lemma {:induction false} PublishedStays(b: Bus, ids: seq<nat>, world: nat -> Delivery, id: nat)
    requires InRange(ids, |b.rows|) && id < |b.rows| && b.rows[id].published && id in b.added
    ensures PublishAll(b, ids, world).rows[id].published && id in PublishAll(b, ids, world).added
    decreases |ids|
  {
    if ids != [] && !Dies(world(ids[0])) { PublishedStays(PublishOne(b, ids[0], world(ids[0])), ids[1..], world, id); }
  }

  lemma {:induction false} ReachedIsPublished(b: Bus, ids: seq<nat>, world: nat -> Delivery, id: nat)
    requires InRange(ids, |b.rows|) && id in ids && world(id) == Published &&
             forall k :: 0 <= k < |ids| ==> !Dies(world(ids[k]))
    ensures id < |b.rows| && PublishAll(b, ids, world).rows[id].published && id in PublishAll(b, ids, world).added
    decreases |ids|
  {
    var b' := PublishOne(b, ids[0], world(ids[0]));
    if id == ids[0] { PublishedStays(b', ids[1..], world, id); } else { ReachedIsPublished(b', ids[1..], world, id); }
  }

  /** A row of the batch is marked if all went well, its attempts grow if something failed, and the queue has it
      unless it refused it; a row outside does not change. */
  predicate RowDelivered(b: Bus, b': Bus, inBatch: bool, d: Delivery, id: nat)
    requires id < |b.rows| == |b'.rows|
  {
    var row, row' := b.rows[id], b'.rows[id];
    && row'.fixture == row.fixture
    && (row'.published <==> row.published || (inBatch && d == Published))
    && row'.attempts == row.attempts + (if inBatch && d != Published then 1 else 0)
    && (id in b'.added <==> id in b.added || (inBatch && d in {Published, MarkFailed}))
  }

  /** What a tick that does not die does to every row. */
  ghost predicate Delivered(b: Bus, b': Bus, ids: seq<nat>, world: nat -> Delivery) {
    && |b'.rows| == |b.rows| && b'.finalized == b.finalized
    && forall id :: 0 <= id < |b.rows| ==> RowDelivered(b, b', id in ids, world(id), id)
  }

  lemma FirstDelivered(b: Bus, b2: Bus, ids: seq<nat>, world: nat -> Delivery)
    requires ids != [] && ids[0] < |b.rows| && !Dies(world(ids[0])) && ids[0] !in ids[1..]
    requires Delivered(PublishOne(b, ids[0], world(ids[0])), b2, ids[1..], world)
    ensures Delivered(b, b2, ids, world)
  {
    var b1 := PublishOne(b, ids[0], world(ids[0]));
    forall id | 0 <= id < |b.rows| ensures RowDelivered(b, b2, id in ids, world(id), id) {
      assert RowDelivered(b1, b2, id in ids[1..], world(id), id);
      assert id in ids <==> id == ids[0] || id in ids[1..];
    }
  }

  lemma {:induction false} AllDelivered(b: Bus, ids: seq<nat>, world: nat -> Delivery)
    requires InRange(ids, |b.rows|) && Ascending(ids, 0) && forall k :: 0 <= k < |ids| ==> !Dies(world(ids[k]))
    ensures Delivered(b, PublishAll(b, ids, world), ids, world)
    decreases |ids|
  {
    if ids != [] {
      var rest := ids[1..];
      assert forall k :: 0 <= k < |rest| ==> rest[k] == ids[k + 1];
      assert ids[0] !in rest;
      AllDelivered(PublishOne(b, ids[0], world(ids[0])), rest, world);
      FirstDelivered(b, PublishAll(b, ids, world), ids, world);
    }
  }

  lemma TickDelivers(b: Bus, world: nat -> Delivery)
    requires forall id :: 0 <= id < |b.rows| ==> !Dies(world(id))
    ensures Delivered(b, Tick(b, world), Batch(b.rows, 0, BATCH), world)
  {
    BatchFacts(b.rows, 0, BATCH);
    AllDelivered(b, Batch(b.rows, 0, BATCH), world);
  }

  /** While fewer rows keep failing than a batch is long, the oldest other row is published by the next
      tick. */
  lemma OldestOtherIsPublished(b: Bus, world: nat -> Delivery, failing: set<nat>, id: nat)
    requires |failing| < BATCH &&
             (forall x :: if x in failing then world(x) in {QueueDown, MarkFailed} else world(x) == Published)
    requires id < |b.rows| && !b.rows[id].published && id !in failing
    requires forall j :: 0 <= j < id && !b.rows[j].published ==> j in failing
    ensures Tick(b, world).rows[id].published && id in Tick(b, world).added
  {
    WaitingIsCount(b.rows, 0, id);
    SmallerSet(WaitingRows(b.rows, 0, id), failing);
    InBatchIff(b.rows, 0, BATCH, id);
    BatchFacts(b.rows, 0, BATCH);
    ReachedIsPublished(b, Batch(b.rows, 0, BATCH), world, id);
  }

  predicate SamePublished(rows: seq<Row>, rows': seq<Row>) {
    |rows| <= |rows'| && forall i :: 0 <= i < |rows| ==> rows'[i].published == rows[i].published
  }

  /** New rows do not enter a batch that is full. */
  lemma {:induction false} FullBatchStays(rows: seq<Row>, rows': seq<Row>, i: nat, limit: nat)
    requires i <= |rows| && SamePublished(rows, rows') && |Batch(rows, i, limit)| == limit
    ensures Batch(rows', i, limit) == Batch(rows, i, limit)
    decreases |rows| - i
  {
    if limit > 0 && i < |rows| { FullBatchStays(rows, rows', i + 1, if rows[i].published then limit else limit - 1); }
  }

  predicate Fails(world: nat -> Delivery, ids: seq<nat>) { forall k :: 0 <= k < |ids| ==> world(ids[k]) != Published }

  ghost function Members(ids: seq<nat>): set<nat> { set id | id in ids }

  lemma {:induction false} FailingBatch(b: Bus, ids: seq<nat>, world: nat -> Delivery)
    requires InRange(ids, |b.rows|) && Fails(world, ids)
    ensures SamePublished(b.rows, PublishAll(b, ids, world).rows) &&
            PublishAll(b, ids, world).added <= b.added + Members(ids)
    decreases |ids|
  {
    if ids != [] {
      var b' := PublishOne(b, ids[0], world(ids[0]));
      if !Dies(world(ids[0])) {
        FailingBatch(b', ids[1..], world);
        assert Members(ids) == {ids[0]} + Members(ids[1..]);
      }
    }
  }

  predicate KeepFailing(steps: seq<Step>, ids: seq<nat>) {
    forall i :: 0 <= i < |steps| && steps[i].TickStep? ==> Fails(steps[i].world, ids)
  }

  /** A whole batch of rows that keep failing starves every later event: however many ticks run and
      events arrive, the batch stays and no other job is ever added. */
  lemma {:induction false} FailingBatchStarves(b: Bus, steps: seq<Step>, ids: seq<nat>)
    requires ids == Batch(b.rows, 0, BATCH) && |ids| == BATCH && KeepFailing(steps, ids)
    ensures Batch(Run(b, steps).rows, 0, BATCH) == ids && Run(b, steps).added <= b.added + Members(ids)
    decreases |steps|
  {
    if steps != [] {
      var b' := Next(b, steps[0]);
      BatchFacts(b.rows, 0, BATCH);
      if steps[0].TickStep? { FailingBatch(b, ids, steps[0].world); }
      FullBatchStays(b.rows, b'.rows, 0, BATCH);
      assert forall i :: 0 <= i < |steps| - 1 ==> steps[1..][i] == steps[i + 1];
      FailingBatchStarves(b', steps[1..], ids);
    }
  }

  // ---------------------------------------------------------------- the relay

  class OutboxRelay {
    var rows: seq<Row>
    var running: bool
    ghost var finalized: set<Uuid>
    var queue: set<nat>

    ghost function State(): Bus
      reads this
    {
      Bus(finalized, rows, queue)
    }

    constructor ()
      ensures State() == START && !running
    {
      rows, running, finalized, queue := [], false, {}, {};
    }

    method FindBatch(limit: nat) returns (ids: seq<nat>)
      ensures ids == Batch(rows, 0, limit)
    {
      ids := [];
      var i := 0;
      while i < |rows| && |ids| < limit
        invariant 0 <= i <= |rows| && |ids| <= limit
        invariant Batch(rows, 0, limit) == ids + Batch(rows, i, limit - |ids|)
      {
        if !rows[i].published { ids := ids + [i]; }
        i := i + 1;
      }
    }

    method Deliver(id: nat, d: Delivery)
      requires id < |rows|
      modifies this`rows, this`queue
      ensures State() == PublishOne(old(State()), id, d)
    {
      if d != QueueDown && d != DiedBeforeAdd { queue := queue + {id}; }
      if d == Published {
        rows := rows[id := rows[id].(published := true)];
      } else if d == QueueDown || d == MarkFailed {
        rows := rows[id := rows[id].(attempts := rows[id].attempts + 1)];
      }
    }

    /** No overlapping ticks; a row is marked after its job was added. */
    method Relay(world: nat -> Delivery)
      modifies this
      ensures State() == if old(running) then old(State()) else Tick(old(State()), world)
      ensures running == old(running)
    {
      if running { return; }
      running := true;
      var batch := FindBatch(BATCH);
      BatchFacts(rows, 0, BATCH);
      var k := 0;
      while k < |batch|
        invariant 0 <= k <= |batch| && |rows| == |old(rows)| && running && finalized == old(finalized)
        invariant PublishAll(old(State()), batch, world) == PublishAll(State(), batch[k..], world)
      {
        var id, d := batch[k], world(batch[k]);
        assert batch[k..][0] == id && batch[k..][1..] == batch[k + 1..];
        k := k + 1;
        Deliver(id, d);
        if Dies(d) { break; }
      }
      running := false;
    }
  }
}
