/**
 The durable discovery repository: a leased queue whose leases expire, creator states, review,
 exclusions and removals. Its operations are functions on a `Repo` value; the class updates
 its tables in place. As long as no lease expires and no creator is blocked it refines the
 in-memory store of `Frontier`.
 */
module Repository {
  import opened Wrappers
  import opened Frontier

  type RequestId = nat

  datatype CreatorState =
    | Discovered | Hydrated | Sampled | NeedsReview | Qualified | Deferred | Rejected | Blocked | Deleted

  datatype ReviewDecision = ApproveCreator | DeferCreator | RejectCreator | BlockCreator

  /** A task with its lease; `lockedUntil` means something only while the task is leased. */
  datatype Row = Row(task: Task, lockedBy: Option<Worker>, lockedUntil: int)

  datatype Removal = Removal(subjectType: string, subjectKey: string, approved: bool)

  /** `outbox` holds the removal events, by the request they carry out. */
  datatype Repo = Repo(
    rows: map<TaskId, Row>, counter: nat, creators: map<Did, CreatorState>, exclusions: set<Exclusion>,
    removals: map<RequestId, Removal>, outbox: multiset<RequestId>)

  const EMPTY_REPO := Repo(map[], 0, map[], {}, map[], multiset{})

  predicate Excluded(exclusions: set<Exclusion>, did: Did) {
    Exclusion("creator", did, "discovery") in exclusions || Exclusion("creator", did, "all") in exclusions
  }

  // ----- the queue -----

  function ClampPriority(p: real): real {
    if p < 0.0 then 0.0 else if p > 1.0 then 1.0 else p
  }

  predicate MayInsert(r: Repo, t: Task) {
    && !(t.did != "" && Excluded(r.exclusions, t.did))
    && (forall id | id in r.rows :: !(r.rows[id].task.entity == t.entity && r.rows[id].task.action == t.action
                                      && IsActive(r.rows[id].task.status)))
    && (forall id | id in r.rows :: r.rows[id].task.Key() != t.Key())
  }

  function NewTask(draft: Task, id: TaskId): Task {
    draft.(id := id, status := Pending, attempts := 0, priority := ClampPriority(draft.priority))
  }

  function Insert(r: Repo, draft: Task): Repo {
    if !MayInsert(r, draft) then r
    else r.(counter := r.counter + 1,
            rows := r.rows[r.counter + 1 := Row(NewTask(draft, r.counter + 1), None, 0)])
  }

  predicate Expired(row: Row, now: int) {
    row.task.status.Leased? && row.lockedUntil < now
  }

  predicate IsClaimable(row: Row, now: int) {
    (IsWaiting(row.task.status) && row.task.runAfter <= now) || Expired(row, now)
  }

  function Relock(row: Row, worker: Worker, until: int): Row {
    Row(Lease(row.task), Some(worker), until)
  }

  function Take(r: Repo, ids: set<TaskId>, worker: Worker, until: int): Repo {
    r.(rows := map id | id in r.rows :: if id in ids then Relock(r.rows[id], worker, until) else r.rows[id])
  }

  predicate LockedBy(r: Repo, id: TaskId, worker: Worker) {
    id in r.rows && r.rows[id].task.status.Leased? && r.rows[id].lockedBy == Some(worker)
  }

  function Free(row: Row, status: Status): Row {
    Row(row.task.(status := status), None, 0)
  }

  function Finish(r: Repo, id: TaskId, worker: Worker): Repo {
    if LockedBy(r, id, worker) then r.(rows := r.rows[id := Free(r.rows[id], Completed)]) else r
  }

  function Pow2(n: nat): nat {
    if n == 0 then 1 else 2 * Pow2(n - 1)
  }

  /** The pause before the next attempt doubles with every attempt made. */
  function Backoff(attempts: nat, base: nat): nat {
    base * Pow2(if attempts == 0 then 0 else attempts - 1)
  }

  function FailedRow(row: Row, now: int, base: nat): Row {
    var freed := Free(row, FailStatus(row.task));
    freed.(task := freed.task.(runAfter := now + Backoff(row.task.attempts, base)))
  }

  function GiveUp(r: Repo, id: TaskId, worker: Worker, now: int, base: nat): Repo {
    if LockedBy(r, id, worker) then r.(rows := r.rows[id := FailedRow(r.rows[id], now, base)]) else r
  }

  // ----- creators, review and removal -----

  function ReviewTarget(d: ReviewDecision): CreatorState {
    match d
    case ApproveCreator => Qualified
    case DeferCreator => Deferred
    case RejectCreator => Rejected
    case BlockCreator => Blocked
  }

  function CancelRow(row: Row, entity: EntityId): Row {
    if row.task.entity == entity && IsWaiting(row.task.status)
    then row.(task := row.task.(status := Cancelled)) else row
  }

  function CancelWaiting(r: Repo, entity: EntityId): Repo {
    r.(rows := map id | id in r.rows :: CancelRow(r.rows[id], entity))
  }

  predicate MayReview(r: Repo, did: Did) {
    did in r.creators && !r.creators[did].Deleted?
  }

  /** An unknown or deleted creator is an error and changes nothing. */
  function Review(r: Repo, did: Did, d: ReviewDecision): Repo {
    if !MayReview(r, did) then r
    else
      var t := r.(creators := r.creators[did := ReviewTarget(d)]);
      if !d.BlockCreator? then t
      else CancelWaiting(t.(exclusions := t.exclusions + {Exclusion("creator", did, "all")}), EntityOf(did))
  }

  predicate IsOpen(r: Repo, request: RequestId) {
    request in r.removals && !r.removals[request].approved
  }

  /** Excludes and deletes the subject and publishes one removal event. */
  function Approve(r: Repo, request: RequestId): Repo {
    if !IsOpen(r, request) then r
    else
      var removal := r.removals[request];
      r.(exclusions := r.exclusions + {Exclusion(removal.subjectType, removal.subjectKey, "all")},
         creators := if removal.subjectType == "creator" && removal.subjectKey in r.creators
                     then r.creators[removal.subjectKey := Deleted] else r.creators,
         outbox := if request in r.outbox then r.outbox else r.outbox + multiset{request},
         removals := r.removals[request := removal.(approved := true)])
  }

  /** Deleted and blocked stay; an unsafe creator is blocked; otherwise a reviewed state stands. */
  function HydratedState(previous: Option<CreatorState>, unsafe: bool): CreatorState {
    if previous == Some(Deleted) then Deleted
    else if previous == Some(Blocked) || unsafe then Blocked
    else if previous.Some? && previous.value in {Qualified, NeedsReview, Deferred, Rejected} then previous.value
    else Hydrated
  }

  function StateOf(r: Repo, did: Did): Option<CreatorState> {
    if did in r.creators then Some(r.creators[did]) else None
  }

  datatype Op =
    | DoInsert(draft: Task)
    | DoTake(ids: set<TaskId>, worker: Worker, now: int, seconds: nat)
    | DoFinish(id: TaskId, worker: Worker)
    | DoGiveUp(id: TaskId, worker: Worker, now: int, base: nat)
    | DoReview(did: Did, decision: ReviewDecision)
    | DoExclude(exclusion: Exclusion)
    | DoRequest(request: RequestId, subjectType: string, subjectKey: string)
    | DoApprove(request: RequestId)
    | DoHydrate(did: Did, unsafe: bool)
    | DoProfile(did: Did, state: CreatorState)

  /** A claim takes claimable tasks; a new request gets a new id. */
  ghost predicate Enabled(r: Repo, op: Op) {
    && (op.DoTake? ==> forall id | id in op.ids :: id in r.rows && IsClaimable(r.rows[id], op.now))
    && (op.DoRequest? ==> op.request !in r.removals)
  }

  function Apply(r: Repo, op: Op): Repo {
    match op
    case DoInsert(draft) => Insert(r, draft)
    case DoTake(ids, worker, now, seconds) => Take(r, ids, worker, now + seconds)
    case DoFinish(id, worker) => Finish(r, id, worker)
    case DoGiveUp(id, worker, now, base) => GiveUp(r, id, worker, now, base)
    case DoReview(did, decision) => Review(r, did, decision)
    case DoExclude(e) => r.(exclusions := r.exclusions + {e})
    case DoRequest(request, subjectType, subjectKey) =>
      r.(removals := r.removals[request := Removal(subjectType, subjectKey, false)])
    case DoApprove(request) => Approve(r, request)
    case DoHydrate(did, unsafe) => r.(creators := r.creators[did := HydratedState(StateOf(r, did), unsafe)])
    case DoProfile(did, state) =>
      if did in r.creators then r.(creators := r.creators[did := state]) else r
  }

  ghost predicate Legal(r: Repo, ops: seq<Op>)
    decreases |ops|
  {
    ops == [] || (Enabled(r, ops[0]) && Legal(Apply(r, ops[0]), ops[1..]))
  }

  function Run(r: Repo, ops: seq<Op>): Repo
    decreases |ops|
  {
    if ops == [] then r else Run(Apply(r, ops[0]), ops[1..])
  }

  // ----- the queue invariant -----

  predicate RowCounted(t: Task) {
    match t.status
    case Pending => t.attempts == 0
    case Retry => 0 < t.attempts < t.Limit()
    case Leased => 0 < t.attempts
    case Completed => 0 < t.attempts
    case Dead => t.attempts >= t.Limit()
    case Cancelled => t.attempts < t.Limit()
  }

  ghost predicate RowsFit(r: Repo) {
    forall id | id in r.rows ::
      && r.rows[id].task.id == id && 1 <= id <= r.counter && RowCounted(r.rows[id].task)
      && (r.rows[id].lockedBy.Some? <==> r.rows[id].task.status.Leased?)
  }

  predicate SameRowKey(rows: map<TaskId, Row>, i: TaskId, j: TaskId) {
    i in rows && j in rows && rows[i].task.Key() == rows[j].task.Key()
  }

  predicate RowRivals(rows: map<TaskId, Row>, i: TaskId, j: TaskId) {
    && i in rows && j in rows
    && rows[i].task.entity == rows[j].task.entity && rows[i].task.action == rows[j].task.action
    && IsActive(rows[i].task.status) && IsActive(rows[j].task.status)
  }

  /** Each (campaign, entity, action) has one task, and each (entity, action) one active task. */
  ghost predicate RowsUnique(rows: map<TaskId, Row>) {
    && (forall i, j {:trigger SameRowKey(rows, i, j)} | SameRowKey(rows, i, j) :: i == j)
    && (forall i, j {:trigger RowRivals(rows, i, j)} | RowRivals(rows, i, j) :: i == j)
  }

  ghost predicate Valid(r: Repo) {
    RowsFit(r) && RowsUnique(r.rows)
  }

  lemma SameFacesOfRows(a: map<TaskId, Row>, b: map<TaskId, Row>)
    requires RowsUnique(a) && a.Keys == b.Keys
    requires forall id | id in a ::
      b[id].task.Key() == a[id].task.Key() && (IsActive(b[id].task.status) ==> IsActive(a[id].task.status))
    ensures RowsUnique(b)
  {
    forall i, j | SameRowKey(b, i, j) ensures i == j {
      assert SameRowKey(a, i, j);
    }
    forall i, j | RowRivals(b, i, j) ensures i == j {
      assert a[i].task.Key() == b[i].task.Key() && a[j].task.Key() == b[j].task.Key();
      assert RowRivals(a, i, j);
    }
  }

  lemma InsertKeepsValid(r: Repo, draft: Task)
    requires Valid(r)
    ensures Valid(Insert(r, draft))
  {
    if MayInsert(r, draft) {
      var rows, all := r.rows, Insert(r, draft).rows;
      assert r.counter + 1 !in rows;
      forall i, j | SameRowKey(all, i, j) ensures i == j {
        assert i in rows && j in rows ==> SameRowKey(rows, i, j);
      }
      forall i, j | RowRivals(all, i, j) ensures i == j {
        assert i in rows && j in rows ==> RowRivals(rows, i, j);
      }
    }
  }

  lemma TakeKeepsValid(r: Repo, op: Op)
    requires Valid(r) && op.DoTake? && Enabled(r, op)
    ensures Valid(Apply(r, op))
  {
    SameFacesOfRows(r.rows, Apply(r, op).rows);
  }

  lemma ReviewKeepsValid(r: Repo, did: Did, d: ReviewDecision)
    requires Valid(r)
    ensures Valid(Review(r, did, d))
  {
    SameFacesOfRows(r.rows, Review(r, did, d).rows);
  }

  lemma ReplaceKeepsValid(r: Repo, id: TaskId, row: Row)
    requires Valid(r) && id in r.rows && IsActive(r.rows[id].task.status)
    requires row.task.id == id && row.task.Key() == r.rows[id].task.Key() && RowCounted(row.task)
    requires row.lockedBy.Some? <==> row.task.status.Leased?
    ensures Valid(r.(rows := r.rows[id := row]))
  {
    SameFacesOfRows(r.rows, r.rows[id := row]);
  }

  lemma ReleaseKeepsRows(r: Repo, op: Op)
    requires Valid(r) && (op.DoFinish? || op.DoGiveUp?)
    ensures Valid(Apply(r, op))
  {
    hide Backoff, RowsUnique;
    if LockedBy(r, op.id, op.worker) {
      var row := r.rows[op.id];
      assert RowCounted(row.task) && row.task.id == op.id;
      ReplaceKeepsValid(r, op.id, if op.DoFinish? then Free(row, Completed) else FailedRow(row, op.now, op.base));
    }
  }

  /** Every repository operation, in any order and at any time, keeps the queue invariant. */
  lemma OpKeepsRepoValid(r: Repo, op: Op)
    requires Valid(r) && Enabled(r, op)
    ensures Valid(Apply(r, op))
  {
    if op.DoInsert? {
      InsertKeepsValid(r, op.draft);
    } else if op.DoTake? {
      TakeKeepsValid(r, op);
    } else if op.DoReview? {
      ReviewKeepsValid(r, op.did, op.decision);
    } else if op.DoFinish? || op.DoGiveUp? {
      ReleaseKeepsRows(r, op);
    }
  }

  // ----- leases -----

  /** The time of an operation, for those that read the clock. */
  predicate Before(op: Op, time: int) {
    (op.DoTake? || op.DoGiveUp?) ==> op.now <= time
  }

  predicate EndsLease(op: Op, id: TaskId, worker: Worker) {
    (op.DoFinish? || op.DoGiveUp?) && op.id == id && op.worker == worker
  }

  /** Until its lease runs out, nobody but its holder can touch a leased task. */
  lemma {:induction false} LeaseIsExclusive(r: Repo, ops: seq<Op>, id: TaskId, worker: Worker)
    requires Valid(r) && Legal(r, ops) && LockedBy(r, id, worker)
    requires forall i | 0 <= i < |ops| :: Before(ops[i], r.rows[id].lockedUntil) && !EndsLease(ops[i], id, worker)
    ensures id in Run(r, ops).rows && Run(r, ops).rows[id] == r.rows[id]
    decreases |ops|
  {
    if ops != [] {
      var next := Apply(r, ops[0]);
      OpKeepsRepoValid(r, ops[0]);
      LeaseUntouched(r, ops[0], id, worker);
      LeaseIsExclusive(next, ops[1..], id, worker);
    }
  }

  lemma LeaseUntouched(r: Repo, op: Op, id: TaskId, worker: Worker)
    requires Valid(r) && Enabled(r, op) && LockedBy(r, id, worker)
    requires Before(op, r.rows[id].lockedUntil) && !EndsLease(op, id, worker)
    ensures id in Apply(r, op).rows && Apply(r, op).rows[id] == r.rows[id]
  {
    hide RowsUnique, Backoff, MayInsert;
    assert !IsClaimable(r.rows[id], r.rows[id].lockedUntil);
  }

  // ----- retries -----

  /** The first retry waits for the base pause, and each further one twice as long as the last. */
  lemma BackoffDoubles(attempts: nat, base: nat)
    requires attempts > 0
    ensures Backoff(1, base) == base && Backoff(attempts + 1, base) == 2 * Backoff(attempts, base)
  {
    var p := Pow2(attempts - 1);
    assert Pow2(attempts) == 2 * p;
    assert base * (2 * p) == 2 * (base * p);
  }

  predicate Resting(r: Repo, id: TaskId) {
    id in r.rows && r.rows[id].task.status.Retry?
  }

  lemma RestUntouched(r: Repo, op: Op, id: TaskId)
    requires Valid(r) && Enabled(r, op) && Resting(r, id)
    requires op.DoTake? ==> op.now < r.rows[id].task.runAfter
    ensures id in Apply(r, op).rows
    ensures Apply(r, op).rows[id] in {r.rows[id], r.rows[id].(task := r.rows[id].task.(status := Cancelled))}
  {
    hide RowsUnique, Backoff, MayInsert;
  }

  lemma CancelledIsFinal(r: Repo, op: Op, id: TaskId)
    requires Valid(r) && Enabled(r, op) && id in r.rows && r.rows[id].task.status in {Cancelled, Completed, Dead}
    ensures id in Apply(r, op).rows && Apply(r, op).rows[id] == r.rows[id]
  {
    hide RowsUnique, Backoff, MayInsert;
  }

  /** Until its pause is over, a failed task is not claimed; a block may only cancel it for good. */
  lemma {:induction false} RetryWaits(r: Repo, ops: seq<Op>, id: TaskId)
    requires Valid(r) && Legal(r, ops)
    requires Resting(r, id) || (id in r.rows && r.rows[id].task.status.Cancelled?)
    requires forall i | 0 <= i < |ops| :: ops[i].DoTake? ==> ops[i].now < r.rows[id].task.runAfter
    ensures id in Run(r, ops).rows
    ensures Run(r, ops).rows[id] in {r.rows[id], r.rows[id].(task := r.rows[id].task.(status := Cancelled))}
    decreases |ops|
  {
    if ops != [] {
      OpKeepsRepoValid(r, ops[0]);
      if Resting(r, id) {
        RestUntouched(r, ops[0], id);
      } else {
        CancelledIsFinal(r, ops[0], id);
      }
      RetryWaits(Apply(r, ops[0]), ops[1..], id);
    }
  }

  // ----- how long a claim and a pause last -----

  /** The time by which a failure puts the task off. */
  function Pause(r: Repo, op: Op): int
    requires op.DoGiveUp? && LockedBy(r, op.id, op.worker)
  {
    Apply(r, op).rows[op.id].task.runAfter - op.now
  }

  /** A first failure puts the task off by the base; each further one by twice as long as the one before. */
  lemma PausesDouble(r: Repo, op: Op, s: Repo, next: Op)
    requires op.DoGiveUp? && LockedBy(r, op.id, op.worker) && next.DoGiveUp? && LockedBy(s, next.id, next.worker)
    requires next.base == op.base && r.rows[op.id].task.attempts >= 1
    requires s.rows[next.id].task.attempts == r.rows[op.id].task.attempts + 1
    ensures r.rows[op.id].task.attempts == 1 ==> Pause(r, op) == op.base
    ensures Pause(s, next) == 2 * Pause(r, op)
  {
    BackoffDoubles(r.rows[op.id].task.attempts, op.base);
  }

  lemma {:induction false} PauseIsLong(attempts: nat, base: nat)
    ensures Backoff(attempts, base) >= base
  {
    if attempts > 1 {
      PauseIsLong(attempts - 1, base);
      BackoffDoubles(attempts - 1, base);
    }
  }

  /** After its holder failed a task nobody claims it before the base pause is over, whatever else happens. */
  lemma FailedTaskRests(r: Repo, id: TaskId, worker: Worker, now: int, base: nat, ops: seq<Op>)
    requires Valid(r) && LockedBy(r, id, worker)
    requires Legal(Apply(r, DoGiveUp(id, worker, now, base)), ops)
    requires forall i | 0 <= i < |ops| :: ops[i].DoTake? ==> ops[i].now < now + base
    ensures var t := Run(Apply(r, DoGiveUp(id, worker, now, base)), ops);
      && id in t.rows && t.rows[id].lockedBy == None
      && t.rows[id].task.attempts == r.rows[id].task.attempts
      && t.rows[id].task.status in {Retry, Dead, Cancelled}
  {
    var s := Apply(r, DoGiveUp(id, worker, now, base));
    OpKeepsRepoValid(r, DoGiveUp(id, worker, now, base));
    PauseIsLong(r.rows[id].task.attempts, base);
    if s.rows[id].task.status.Retry? {
      RetryWaits(s, ops, id);
    } else {
      EndedStays(s, ops, id);
    }
  }

  lemma {:induction false} EndedStays(r: Repo, ops: seq<Op>, id: TaskId)
    requires Valid(r) && Legal(r, ops) && id in r.rows && r.rows[id].task.status in {Cancelled, Completed, Dead}
    ensures id in Run(r, ops).rows && Run(r, ops).rows[id] == r.rows[id]
    decreases |ops|
  {
    if ops != [] {
      OpKeepsRepoValid(r, ops[0]);
      CancelledIsFinal(r, ops[0], id);
      EndedStays(Apply(r, ops[0]), ops[1..], id);
    }
  }

  /**
   A claimed task is its worker's for the whole lease: no operation before `now + seconds` changes it
   but the worker's own end of it.
   */
  lemma ClaimLasts(r: Repo, op: Op, ops: seq<Op>, id: TaskId)
    requires Valid(r) && op.DoTake? && Enabled(r, op) && id in op.ids && Legal(Apply(r, op), ops)
    requires forall i | 0 <= i < |ops| :: Before(ops[i], op.now + op.seconds) && !EndsLease(ops[i], id, op.worker)
    ensures var t := Run(Apply(r, op), ops);
      && id in t.rows && LockedBy(t, id, op.worker)
      && t.rows[id].task.attempts == r.rows[id].task.attempts + 1
  {
    OpKeepsRepoValid(r, op);
    LeaseIsExclusive(Apply(r, op), ops, id, op.worker);
  }

  // ----- attempts -----

  ghost predicate WithinLimits(r: Repo) {
    forall id | id in r.rows :: r.rows[id].task.attempts <= r.rows[id].task.Limit()
  }

  /** A claim looks at no attempt count when it takes over an expired lease: exactly then a limit can break. */
  lemma LimitsHoldIff(r: Repo, op: Op)
    requires Valid(r) && Enabled(r, op) && WithinLimits(r)
    ensures WithinLimits(Apply(r, op)) <==> !LateTakeover(r, op)
  {
    hide RowsUnique, Backoff, MayInsert;
    if op.DoTake? {
      forall id | id in op.ids && Expired(r.rows[id], op.now)
        && r.rows[id].task.attempts == r.rows[id].task.Limit()
        ensures !WithinLimits(Apply(r, op))
      {
        assert Apply(r, op).rows[id].task.attempts > Apply(r, op).rows[id].task.Limit();
      }
    }
  }

  /** No expired lease of a task at its limit is taken over. */
  ghost predicate NoLateTakeover(r: Repo, ops: seq<Op>)
    decreases |ops|
  {
    ops == [] || (!LateTakeover(r, ops[0]) && NoLateTakeover(Apply(r, ops[0]), ops[1..]))
  }

  predicate LateTakeover(r: Repo, op: Op) {
    op.DoTake? && exists id | id in op.ids ::
      id in r.rows && Expired(r.rows[id], op.now) && r.rows[id].task.attempts == r.rows[id].task.Limit()
  }

  lemma {:induction false} RunWithinLimits(r: Repo, ops: seq<Op>)
    requires Valid(r) && WithinLimits(r) && Legal(r, ops) && NoLateTakeover(r, ops)
    ensures WithinLimits(Run(r, ops))
    decreases |ops|
  {
    if ops != [] {
      OpKeepsRepoValid(r, ops[0]);
      LimitsHoldIff(r, ops[0]);
      RunWithinLimits(Apply(r, ops[0]), ops[1..]);
    }
  }

  /** One task with a limit of one, claimed, left to expire and claimed again. */
  lemma LimitCanBreak() returns (ops: seq<Op>)
    ensures Legal(EMPTY_REPO, ops) && !WithinLimits(Run(EMPTY_REPO, ops))
  {
    var draft := Task(0, 1, "e", SampleCreatorMedia, Pending, 0, 0.5, 0, 1, 0, 0, None, "d");
    var add, take, retake := DoInsert(draft), DoTake({1}, "w", 0, 10), DoTake({1}, "w", 11, 10);
    var r1 := Apply(EMPTY_REPO, add);
    assert r1.rows == map[1 := Row(NewTask(draft, 1), None, 0)];
    var r2 := Apply(r1, take);
    assert r2.rows == map[1 := Relock(r1.rows[1], "w", 10)];
    var r3 := Apply(r2, retake);
    assert r3.rows[1] == Relock(r2.rows[1], "w", 21);
    assert [retake] + [] == [retake];
    LegalThen(r2, retake, []);
    LegalThen(r1, take, [retake]);
    LegalThen(EMPTY_REPO, add, [take] + [retake]);
    ops := [add] + ([take] + [retake]);
  }

  lemma LegalThen(r: Repo, op: Op, rest: seq<Op>)
    requires Enabled(r, op) && Legal(Apply(r, op), rest)
    ensures Legal(r, [op] + rest) && Run(r, [op] + rest) == Run(Apply(r, op), rest)
  {
    assert ([op] + rest)[1..] == rest;
  }

  // ----- the exclusion barrier -----

  predicate Carries(r: Repo, id: TaskId, did: Did) {
    id in r.rows && r.rows[id].task.did == did
  }

  lemma OpKeepsBarrier(r: Repo, op: Op, did: Did)
    requires Valid(r) && Enabled(r, op) && did != "" && Excluded(r.exclusions, did)
    ensures Excluded(Apply(r, op).exclusions, did)
    ensures forall id :: Carries(Apply(r, op), id, did) <==> Carries(r, id, did)
  {
    hide RowsUnique, Backoff;
    if op.DoInsert? {
      assert r.counter + 1 !in r.rows;
    }
  }

  /**
   However a creator came to be excluded, it stays so through every later operation, and no
   task carrying it is ever created.
   */
  lemma {:induction false} RepositoryBarrier(r: Repo, ops: seq<Op>, did: Did)
    requires Valid(r) && Legal(r, ops) && did != "" && Excluded(r.exclusions, did)
    ensures Excluded(Run(r, ops).exclusions, did)
    ensures forall id :: Carries(Run(r, ops), id, did) <==> Carries(r, id, did)
    decreases |ops|
  {
    if ops != [] {
      OpKeepsRepoValid(r, ops[0]);
      OpKeepsBarrier(r, ops[0], did);
      RepositoryBarrier(Apply(r, ops[0]), ops[1..], did);
    }
  }

  /** Each of the three ways raises the barrier; a block also leaves no waiting task of the creator. */
  lemma BarrierIsRaised(r: Repo, op: Op, did: Did)
    requires Valid(r) && Enabled(r, op)
    requires
      || (op.DoExclude? && op.exclusion in {Exclusion("creator", did, "all"), Exclusion("creator", did, "discovery")})
      || (op.DoReview? && op.did == did && op.decision.BlockCreator? && MayReview(r, did))
      || (op.DoApprove? && IsOpen(r, op.request)
          && r.removals[op.request].subjectType == "creator" && r.removals[op.request].subjectKey == did)
    ensures Excluded(Apply(r, op).exclusions, did)
    ensures op.DoReview? ==> forall id | id in Apply(r, op).rows ::
      Apply(r, op).rows[id].task.entity == EntityOf(did) ==> !IsWaiting(Apply(r, op).rows[id].task.status)
  {
  }

  // ----- removals -----

  /** Every approved request has excluded its subject and published its event once; no other has an event. */
  ghost predicate RemovalsFit(r: Repo) {
    forall request ::
      && r.outbox[request] == (if request in r.removals && r.removals[request].approved then 1 else 0)
      && (request in r.removals && r.removals[request].approved ==>
            Exclusion(r.removals[request].subjectType, r.removals[request].subjectKey, "all") in r.exclusions)
  }

  lemma ApproveKeepsRemovals(r: Repo, request: RequestId)
    requires RemovalsFit(r)
    ensures RemovalsFit(Approve(r, request))
  {
    if IsOpen(r, request) {
      assert r.outbox[request] == 0;
    }
  }

  lemma OpKeepsRemovals(r: Repo, op: Op)
    requires RemovalsFit(r) && Enabled(r, op)
    ensures RemovalsFit(Apply(r, op))
    ensures forall request | request in r.removals && r.removals[request].approved ::
      request in Apply(r, op).removals && Apply(r, op).removals[request] == r.removals[request]
  {
    hide MayInsert, Backoff, CancelRow, Relock;
    if op.DoApprove? {
      ApproveKeepsRemovals(r, op.request);
    } else {
      assert r.exclusions <= Apply(r, op).exclusions && r.outbox == Apply(r, op).outbox;
    }
  }

  lemma {:induction false} RemovalsAreDurable(r: Repo, ops: seq<Op>)
    requires RemovalsFit(r) && Legal(r, ops)
    ensures RemovalsFit(Run(r, ops))
    ensures forall request | request in r.removals && r.removals[request].approved ::
      request in Run(r, ops).removals && Run(r, ops).removals[request] == r.removals[request]
    decreases |ops|
  {
    if ops != [] {
      OpKeepsRemovals(r, ops[0]);
      RemovalsAreDurable(Apply(r, ops[0]), ops[1..]);
    }
  }

  /**
   A deleted creator stays deleted except when a score that was under way is recorded: its
   profile overwrites the state without looking at it.
   */
  lemma DeletedUnlessRescored(r: Repo, op: Op, did: Did)
    requires did in r.creators && r.creators[did].Deleted?
    ensures did in Apply(r, op).creators
    ensures Apply(r, op).creators[did].Deleted? <==> !(op.DoProfile? && op.did == did && !op.state.Deleted?)
  {
    hide MayInsert, Backoff, CancelRow, Relock;
  }

  /** A creator is removed while its score is under way; the score then makes it qualified again. */
  lemma RescoreUndeletes()
    ensures var ops := [DoHydrate("d", false), DoRequest(0, "creator", "d")]
                       + [DoApprove(0), DoProfile("d", Qualified)];
            Legal(EMPTY_REPO, ops) && StateOf(Run(EMPTY_REPO, ops), "d") == Some(Qualified)
    ensures var ops := [DoHydrate("d", false), DoRequest(0, "creator", "d")] + [DoApprove(0)];
            Legal(EMPTY_REPO, ops) && StateOf(Run(EMPTY_REPO, ops), "d") == Some(Deleted)
  {
    var hydrate, request, approve, profile :=
      DoHydrate("d", false), DoRequest(0, "creator", "d"), DoApprove(0), DoProfile("d", Qualified);
    var r1 := Apply(EMPTY_REPO, hydrate);
    var r2 := Apply(r1, request);
    var r3 := Apply(r2, approve);
    assert IsOpen(r2, 0) && r3.creators["d"] == Deleted;
    LegalThen(r3, profile, []);
    LegalThen(r2, approve, []);
    LegalThen(r2, approve, [profile]);
    LegalThen(r1, request, [approve]);
    LegalThen(r1, request, [approve] + [profile]);
    LegalThen(EMPTY_REPO, hydrate, [request] + [approve]);
    LegalThen(EMPTY_REPO, hydrate, [request] + ([approve] + [profile]));
    assert [profile] + [] == [profile] && [approve] + [] == [approve];
    assert [hydrate, request] + [approve, profile] == [hydrate] + ([request] + ([approve] + [profile]));
    assert [hydrate, request] + [approve] == [hydrate] + ([request] + [approve]);
  }

  // ----- hydration -----

  /** The operation sets no creator state but by hydration. */
  predicate OnlyHydrates(op: Op) {
    !op.DoReview? && !op.DoApprove? && !op.DoProfile?
  }

  predicate Hydrates(op: Op, did: Did) {
    op.DoHydrate? && op.did == did
  }

  predicate Reviewed(state: CreatorState) {
    state in {Qualified, NeedsReview, Deferred, Rejected}
  }

  /** The state of a creator after a run with these properties: hydrated at all, and found unsafe. */
  function AfterHydrations(before: Option<CreatorState>, hydrated: bool, unsafe: bool): Option<CreatorState> {
    if !hydrated || before == Some(Deleted) then before
    else if unsafe || before == Some(Blocked) then Some(Blocked)
    else if before.Some? && Reviewed(before.value) then before
    else Some(Hydrated)
  }

  /**
   However often and in whatever order creators are hydrated: deleted is final, blocked is final
   and the fate of every other creator that was once found unsafe, and a review stands otherwise.
   */
  lemma {:induction false} HydrationRun(r: Repo, ops: seq<Op>, did: Did)
    requires forall i | 0 <= i < |ops| :: OnlyHydrates(ops[i])
    ensures StateOf(Run(r, ops), did) == AfterHydrations(
      StateOf(r, did),
      exists i | 0 <= i < |ops| :: Hydrates(ops[i], did),
      exists i | 0 <= i < |ops| :: Hydrates(ops[i], did) && ops[i].unsafe)
    decreases |ops|
  {
    if ops != [] {
      var rest := ops[1..];
      HydrationRun(Apply(r, ops[0]), rest, did);
      HydrationStep(r, ops[0], did);
      assert forall i | 0 < i < |ops| :: ops[i] == rest[i - 1];
      hide Run, Apply;
      assert (exists i | 0 <= i < |ops| :: Hydrates(ops[i], did))
        <==> Hydrates(ops[0], did) || exists i | 0 <= i < |rest| :: Hydrates(rest[i], did) by {
        forall i | 0 <= i < |rest| && Hydrates(rest[i], did) ensures Hydrates(ops[i + 1], did) {
        }
      }
      assert (exists i | 0 <= i < |ops| :: Hydrates(ops[i], did) && ops[i].unsafe)
        <==> (Hydrates(ops[0], did) && ops[0].unsafe)
             || exists i | 0 <= i < |rest| :: Hydrates(rest[i], did) && rest[i].unsafe by {
        forall i | 0 <= i < |rest| && Hydrates(rest[i], did) && rest[i].unsafe
          ensures Hydrates(ops[i + 1], did) && ops[i + 1].unsafe {
        }
      }
    }
  }

  lemma HydrationStep(r: Repo, op: Op, did: Did)
    requires OnlyHydrates(op)
    ensures StateOf(Apply(r, op), did)
         == AfterHydrations(StateOf(r, did), Hydrates(op, did), Hydrates(op, did) && op.unsafe)
  {
    hide MayInsert, Backoff, Relock;
  }

  // ----- refinement of the in-memory store -----

  /** The in-memory store has no timed retries. */
  function Timeless(t: Task): Task {
    t.(runAfter := 0)
  }

  function AbsTasks(rows: map<TaskId, Row>): map<TaskId, Task> {
    map id | id in rows :: Timeless(rows[id].task)
  }

  function AbsKeys(rows: map<TaskId, Row>): set<TaskKey> {
    set id | id in rows :: rows[id].task.Key()
  }

  function AbsLeases(rows: map<TaskId, Row>): map<TaskId, Worker> {
    map id | id in rows && rows[id].lockedBy.Some? :: rows[id].lockedBy.value
  }

  function Abs(r: Repo): Store {
    Store(AbsTasks(r.rows), AbsKeys(r.rows), AbsLeases(r.rows), r.exclusions, [], r.counter)
  }

  lemma AbsUpdate(rows: map<TaskId, Row>, id: TaskId, row: Row)
    ensures AbsTasks(rows[id := row]) == AbsTasks(rows)[id := Timeless(row.task)]
    ensures row.lockedBy == None ==> AbsLeases(rows[id := row]) == AbsLeases(rows) - {id}
  {
  }

  lemma AbsKeysInsert(rows: map<TaskId, Row>, id: TaskId, row: Row)
    requires id !in rows
    ensures AbsKeys(rows[id := row]) == AbsKeys(rows) + {row.task.Key()}
  {
    var all := rows[id := row];
    forall key | key in AbsKeys(rows) + {row.task.Key()} ensures key in AbsKeys(all) {
      if key == row.task.Key() {
        assert id in all;
      } else {
        var other :| other in rows && rows[other].task.Key() == key;
        assert all[other] == rows[other];
      }
    }
  }

  lemma AbsKeysStay(a: map<TaskId, Row>, b: map<TaskId, Row>)
    requires a.Keys == b.Keys && forall id | id in a :: b[id].task.Key() == a[id].task.Key()
    ensures AbsKeys(b) == AbsKeys(a)
  {
    forall key ensures key in AbsKeys(a) <==> key in AbsKeys(b) {
      if key in AbsKeys(a) {
        var id :| id in a && a[id].task.Key() == key;
        assert b[id].task.Key() == key;
      }
      if key in AbsKeys(b) {
        var id :| id in b && b[id].task.Key() == key;
        assert a[id].task.Key() == key;
      }
    }
  }

  /** No expired lease is taken over and no creator is blocked. */
  predicate Plain(r: Repo, op: Op) {
    && (op.DoTake? ==> forall id | id in op.ids && id in r.rows :: !Expired(r.rows[id], op.now))
    && !(op.DoReview? && op.decision.BlockCreator?)
  }

  /** What the in-memory store does meanwhile, if anything. */
  function AbsOp(r: Repo, op: Op): Option<Frontier.Op> {
    match op
    case DoInsert(draft) => Some(DoEnqueue(Timeless(draft).(priority := ClampPriority(draft.priority))))
    case DoTake(ids, worker, _, _) => Some(DoClaim(ids, worker))
    case DoFinish(id, worker) => Some(DoComplete(id, worker))
    case DoGiveUp(id, worker, _, _) => Some(DoFail(id, worker))
    case DoExclude(e) => Some(Frontier.Op.DoExclude(e))
    case DoApprove(request) =>
      if !IsOpen(r, request) then None
      else
        var removal := r.removals[request];
        Some(Frontier.Op.DoExclude(Exclusion(removal.subjectType, removal.subjectKey, "all")))
    case _ => None
  }

  lemma InsertRefines(r: Repo, draft: Task)
    requires Valid(r)
    ensures Abs(Insert(r, draft)) == Enqueue(Abs(r), Timeless(draft).(priority := ClampPriority(draft.priority)))
  {
    var d := Timeless(draft).(priority := ClampPriority(draft.priority));
    SameGuard(r, draft, d);
    if MayInsert(r, draft) {
      var id := r.counter + 1;
      assert id !in r.rows;
      AbsUpdate(r.rows, id, Row(NewTask(draft, id), None, 0));
      AbsKeysInsert(r.rows, id, Row(NewTask(draft, id), None, 0));
      assert AbsLeases(r.rows) - {id} == AbsLeases(r.rows);
    }
  }

  lemma SameGuard(r: Repo, draft: Task, d: Task)
    requires d.Key() == draft.Key() && d.did == draft.did
    ensures MayInsert(r, draft) <==> MayEnqueue(Abs(r), d)
  {
    var s := Abs(r);
    assert forall id | id in r.rows :: s.tasks[id].Key() == r.rows[id].task.Key();
    assert d.Key() in s.taskKeys <==> exists id | id in r.rows :: r.rows[id].task.Key() == d.Key();
    assert d.entity == draft.entity && d.action == draft.action;
    assert HasActiveTask(s, d.entity, d.action) <==> exists id | id in r.rows ::
      r.rows[id].task.entity == d.entity && r.rows[id].task.action == d.action && IsActive(r.rows[id].task.status);
  }

  lemma TakeRefines(r: Repo, op: Op)
    requires Valid(r) && op.DoTake? && Enabled(r, op) && Plain(r, op)
    ensures AllWaiting(Abs(r), op.ids) && Abs(Apply(r, op)) == Claim(Abs(r), op.ids, op.worker)
  {
    hide RowsUnique;
    var rows := Apply(r, op).rows;
    AbsKeysStay(r.rows, rows);
    TakeRowsRefine(r.rows, rows, op.ids, op.worker, op.now + op.seconds);
  }

  lemma TakeRowsRefine(a: map<TaskId, Row>, b: map<TaskId, Row>, ids: set<TaskId>, worker: Worker, until: int)
    requires ids <= a.Keys
    requires b == map id | id in a :: if id in ids then Relock(a[id], worker, until) else a[id]
    ensures AbsTasks(b) == LeaseIn(AbsTasks(a), ids)
    ensures AbsLeases(b) == HandTo(AbsLeases(a), ids, worker)
  {
    var left, right := AbsLeases(b), HandTo(AbsLeases(a), ids, worker);
    assert left.Keys == right.Keys;
  }

  lemma SameHolder(r: Repo, id: TaskId, worker: Worker)
    requires RowsFit(r)
    ensures LockedBy(r, id, worker) <==> Holds(Abs(r), id, worker)
    ensures LockedBy(r, id, worker) ==> id in r.rows && Abs(r).tasks[id] == Timeless(r.rows[id].task)
  {
  }

  lemma ReleaseRefines(r: Repo, op: Op)
    requires Valid(r) && (op.DoFinish? || op.DoGiveUp?)
    ensures Abs(Apply(r, op)) == ApplyOp(Abs(r), AbsOp(r, op).value)
  {
    SameHolder(r, op.id, op.worker);
    hide RowsUnique, RowsFit, Backoff, AbsTasks, AbsLeases, AbsKeys, Timeless;
    if LockedBy(r, op.id, op.worker) {
      var row := r.rows[op.id];
      var freed := if op.DoFinish? then Free(row, Completed) else FailedRow(row, op.now, op.base);
      AbsUpdate(r.rows, op.id, freed);
      AbsKeysStay(r.rows, r.rows[op.id := freed]);
      StatusOnly(row, op);
    }
  }

  /** A released task differs from the in-memory one in its retry time only. */
  lemma StatusOnly(row: Row, op: Op)
    requires op.DoFinish? || op.DoGiveUp?
    ensures op.DoFinish? ==> Timeless(Free(row, Completed).task) == Timeless(row.task).(status := Completed)
    ensures op.DoGiveUp? ==>
      Timeless(FailedRow(row, op.now, op.base).task) == Timeless(row.task).(status := FailStatus(Timeless(row.task)))
  {
  }

  /** Each plain operation does to the queue what the in-memory operation does, or nothing. */
  lemma OpRefines(r: Repo, op: Op)
    requires Valid(r) && Enabled(r, op) && Plain(r, op)
    ensures AbsOp(r, op).Some? ==>
      OpEnabled(Abs(r), AbsOp(r, op).value) && Abs(Apply(r, op)) == ApplyOp(Abs(r), AbsOp(r, op).value)
    ensures AbsOp(r, op) == None ==> Abs(Apply(r, op)) == Abs(r)
  {
    if op.DoInsert? {
      InsertRefines(r, op.draft);
    } else if op.DoTake? {
      TakeRefines(r, op);
    } else if op.DoFinish? || op.DoGiveUp? {
      ReleaseRefines(r, op);
    } else {
      hide AbsTasks, AbsLeases, AbsKeys;
      assert Apply(r, op).rows == r.rows;
    }
  }

  predicate PlainRun(r: Repo, ops: seq<Op>)
    decreases |ops|
  {
    ops == [] || (Plain(r, ops[0]) && PlainRun(Apply(r, ops[0]), ops[1..]))
  }

  /**
   A run without takeovers and blocks is a run of the in-memory store, so everything proved of
   that store, its attempt bound included, holds of the repository.
   */
  lemma {:induction false} RunRefines(r: Repo, ops: seq<Op>) returns (abs: seq<Frontier.Op>)
    requires Valid(r) && Legal(r, ops) && PlainRun(r, ops)
    ensures LegalOps(Abs(r), abs) && RunOps(Abs(r), abs) == Abs(Run(r, ops))
    decreases |ops|
  {
    if ops == [] {
      abs := [];
    } else {
      OpKeepsRepoValid(r, ops[0]);
      OpRefines(r, ops[0]);
      var rest := RunRefines(Apply(r, ops[0]), ops[1..]);
      if AbsOp(r, ops[0]).Some? {
        abs := [AbsOp(r, ops[0]).value] + rest;
        assert abs[1..] == rest;
      } else {
        abs := rest;
      }
    }
  }

  // ----- the order of claims -----

  /** Priority first, then age; ids of tasks are made in the order of their creation. */
  predicate Earlier(a: Task, b: Task, preferHigh: bool) {
    SortPriority(a, preferHigh) < SortPriority(b, preferHigh)
    || (SortPriority(a, preferHigh) == SortPriority(b, preferHigh) && a.id <= b.id)
  }

  predicate Precedes(rows: map<TaskId, Row>, i: TaskId, j: TaskId, preferHigh: bool) {
    i in rows && j in rows && Earlier(rows[i].task, rows[j].task, preferHigh)
  }

  predicate InScope(r: Repo, id: TaskId, now: int, campaign: Option<CampaignId>) {
    && id in r.rows && IsClaimable(r.rows[id], now)
    && (campaign.Some? ==> r.rows[id].task.campaign == campaign.value)
  }

  /** A waiting row whose time has come, or a leased one whose lease has run out. */
  predicate Due(rows: map<TaskId, Row>, id: TaskId, now: int, campaign: Option<CampaignId>) {
    && id in rows && (campaign.Some? ==> rows[id].task.campaign == campaign.value)
    && (((rows[id].task.status.Pending? || rows[id].task.status.Retry?) && rows[id].task.runAfter <= now)
        || (rows[id].task.status.Leased? && rows[id].lockedUntil < now))
  }

  /** The first `limit` claimable tasks. */
  ghost predicate IsClaim(
    r: Repo, ids: set<TaskId>, now: int, limit: nat, campaign: Option<CampaignId>, preferHigh: bool)
  {
    && |ids| <= limit && (forall id | id in ids :: InScope(r, id, now, campaign))
    && forall id | InScope(r, id, now, campaign) && id !in ids ::
         |ids| == limit && forall i | i in ids :: Precedes(r.rows, i, id, preferHigh)
  }

  predicate RelockedFrom(before: Row, after: Row, worker: Worker, until: int) {
    after == Row(before.task.(status := Leased, attempts := before.task.attempts + 1), Some(worker), until)
  }

  predicate WaitsFor(row: Row, did: Did) {
    row.task.entity == EntityOf(did) && (row.task.status.Pending? || row.task.status.Retry?)
  }

  /** Not worse than a due row left out: of higher priority, or of lower when exploring. */
  predicate RowNotWorse(rows: map<TaskId, Row>, i: TaskId, id: TaskId, preferHigh: bool) {
    && i in rows && id in rows
    && (preferHigh ==> rows[i].task.priority >= rows[id].task.priority)
    && (!preferHigh ==> rows[i].task.priority <= rows[id].task.priority)
  }

  /** Due rows are left out only when the limit is used up, and only for rows that are not worse. */
  ghost predicate TakesTheBest(
    rows: map<TaskId, Row>, ids: set<TaskId>, now: int, limit: nat, campaign: Option<CampaignId>, preferHigh: bool)
  {
    && (forall id | id in ids :: Due(rows, id, now, campaign))
    && (|ids| < limit ==> forall id | Due(rows, id, now, campaign) :: id in ids)
    && (forall i, id | i in ids && id !in ids && Due(rows, id, now, campaign) :: RowNotWorse(rows, i, id, preferHigh))
  }

  lemma ClaimTakesTheBest(
    r: Repo, ids: set<TaskId>, now: int, limit: nat, campaign: Option<CampaignId>, preferHigh: bool)
    requires IsClaim(r, ids, now, limit, campaign, preferHigh)
    ensures TakesTheBest(r.rows, ids, now, limit, campaign, preferHigh)
  {
    forall i, id | i in ids && id !in ids && Due(r.rows, id, now, campaign)
      ensures RowNotWorse(r.rows, i, id, preferHigh)
    {
      assert InScope(r, id, now, campaign);
      assert Precedes(r.rows, i, id, preferHigh);
    }
    forall id | Due(r.rows, id, now, campaign) && |ids| < limit ensures id in ids {
      assert InScope(r, id, now, campaign);
    }
    forall id | id in ids ensures Due(r.rows, id, now, campaign) {
      assert InScope(r, id, now, campaign);
    }
  }

  class DiscoveryRepository {
    var rows: map<TaskId, Row>
    var counter: nat
    var creators: map<Did, CreatorState>
    var exclusions: set<Exclusion>
    var removals: map<RequestId, Removal>
    var outbox: multiset<RequestId>

    constructor ()
      ensures View() == EMPTY_REPO
    {
      rows, counter, creators, exclusions, removals, outbox := map[], 0, map[], {}, map[], multiset{};
    }

    function View(): Repo
      reads this
    {
      Repo(rows, counter, creators, exclusions, removals, outbox)
    }

    method EnqueueTask(draft: Task) returns (inserted: bool)
      modifies this
      ensures View() == Apply(old(View()), DoInsert(draft))
      ensures inserted <==> MayInsert(old(View()), draft)
      ensures !inserted ==> rows == old(rows)
      ensures inserted ==> counter == old(counter) + 1
      ensures inserted ==> var task := rows[counter].task;
        rows == old(rows)[counter := Row(task, None, 0)]
        && task == draft.(id := counter, status := Pending, attempts := 0, priority := task.priority)
        && 0.0 <= task.priority <= 1.0 && (0.0 <= draft.priority <= 1.0 ==> task.priority == draft.priority)
    {
      if draft.did != "" && Excluded(exclusions, draft.did) {
        return false;
      }
      if exists id | id in rows ::
          rows[id].task.entity == draft.entity && rows[id].task.action == draft.action
          && IsActive(rows[id].task.status) {
        return false;
      }
      if exists id | id in rows :: rows[id].task.Key() == draft.Key() {
        return false;
      }
      counter := counter + 1;
      rows := rows[counter := Row(NewTask(draft, counter), None, 0)];
      return true;
    }

    method First(ids: set<TaskId>, preferHigh: bool) returns (best: TaskId)
      requires ids != {} && ids <= rows.Keys
      ensures best in ids && forall id | id in ids :: Earlier(rows[best].task, rows[id].task, preferHigh)
    {
      best :| best in ids;
      var rest := ids - {best};
      while rest != {}
        invariant best in ids && rest <= ids
        invariant forall id | id in ids - rest :: Earlier(rows[best].task, rows[id].task, preferHigh)
        decreases rest
      {
        var id :| id in rest;
        if !Earlier(rows[best].task, rows[id].task, preferHigh) {
          best := id;
        }
        rest := rest - {id};
      }
    }

    /** The first `limit` tasks of `all`. */
    method TakeFirst(all: set<TaskId>, limit: nat, preferHigh: bool) returns (ids: set<TaskId>)
      requires all <= rows.Keys
      ensures ids <= all && |ids| <= limit
      ensures all - ids != {} ==> |ids| == limit
      ensures forall i, id | i in ids && id in all - ids :: Precedes(rows, i, id, preferHigh)
    {
      ids := {};
      var rest := all;
      hide Earlier;
      while rest != {} && |ids| < limit
        invariant ids <= all && rest == all - ids && |ids| <= limit
        invariant forall i, id | i in ids && id in rest :: Precedes(rows, i, id, preferHigh)
        decreases rest
      {
        var best := First(rest, preferHigh);
        assert forall id | id in rest :: Precedes(rows, best, id, preferHigh);
        ids := ids + {best};
        rest := rest - {best};
      }
    }

    method SelectClaimable(limit: nat, now: int, campaign: Option<CampaignId>, preferHigh: bool)
      returns (ids: set<TaskId>)
      ensures IsClaim(View(), ids, now, limit, campaign, preferHigh)
    {
      var r := View();
      var all := set id | id in rows && InScope(r, id, now, campaign);
      ids := TakeFirst(all, limit, preferHigh);
      forall id | InScope(r, id, now, campaign) && id !in ids
        ensures |ids| == limit && forall i | i in ids :: Precedes(rows, i, id, preferHigh)
      {
        assert id in all - ids;
      }
    }

    method ClaimTasks(
      worker: Worker, limit: nat, now: int, seconds: nat, campaign: Option<CampaignId>, preferHigh: bool)
      returns (ids: set<TaskId>)
      modifies this
      ensures IsClaim(old(View()), ids, now, limit, campaign, preferHigh)
      ensures Enabled(old(View()), DoTake(ids, worker, now, seconds))
      ensures View() == Apply(old(View()), DoTake(ids, worker, now, seconds))
      ensures rows.Keys == old(rows).Keys && forall id | id in rows && id !in ids :: rows[id] == old(rows)[id]
      ensures forall id | id in ids :: id in rows && RelockedFrom(old(rows)[id], rows[id], worker, now + seconds)
      ensures TakesTheBest(old(rows), ids, now, limit, campaign, preferHigh)
    {
      ids := SelectClaimable(limit, now, campaign, preferHigh);
      assert forall id | id in ids :: InScope(View(), id, now, campaign);
      ClaimTakesTheBest(View(), ids, now, limit, campaign, preferHigh);
      rows := map id | id in rows :: if id in ids then Relock(rows[id], worker, now + seconds) else rows[id];
    }

    method CompleteTask(id: TaskId, worker: Worker) returns (done: bool)
      modifies this
      ensures View() == Apply(old(View()), DoFinish(id, worker))
      ensures done <==> LockedBy(old(View()), id, worker)
      ensures rows == if done then old(rows)[id := Row(old(rows)[id].task.(status := Completed), None, 0)]
                      else old(rows)
    {
      if id !in rows || !rows[id].task.status.Leased? || rows[id].lockedBy != Some(worker) {
        return false;
      }
      rows := rows[id := Row(rows[id].task.(status := Completed), None, 0)];
      return true;
    }

    /** `None` is the error raised when the task is not leased by this worker. */
    method FailTask(id: TaskId, worker: Worker, now: int, base: nat) returns (status: Option<Status>)
      modifies this
      ensures View() == Apply(old(View()), DoGiveUp(id, worker, now, base))
      ensures status == if LockedBy(old(View()), id, worker) then Some(FailStatus(old(rows)[id].task)) else None
      ensures status == None ==> rows == old(rows)
      ensures status.Some? ==> var task := old(rows)[id].task;
        status.value == (if task.attempts >= task.maxAttempts then Dead else Retry)
        && rows == old(rows)[id := Row(task.(status := status.value, runAfter := rows[id].task.runAfter), None, 0)]
        && rows[id].task.runAfter >= now + base
        && (task.attempts <= 1 ==> rows[id].task.runAfter == now + base)
    {
      if id !in rows || !rows[id].task.status.Leased? || rows[id].lockedBy != Some(worker) {
        return None;
      }
      var task := rows[id].task;
      var next := if task.attempts >= task.maxAttempts then Dead else Retry;
      var delay := base * Pow2(if task.attempts - 1 > 0 then task.attempts - 1 else 0);
      PauseIsLong(task.attempts, base);
      rows := rows[id := Row(task.(status := next, runAfter := now + delay), None, 0)];
      return Some(next);
    }

    /** `None` is the error for an unknown or deleted creator. */
    method ReviewCreator(did: Did, decision: ReviewDecision) returns (state: Option<CreatorState>)
      modifies this
      ensures View() == Apply(old(View()), DoReview(did, decision))
      ensures state.Some? <==> did in old(creators) && !old(creators)[did].Deleted?
      ensures state.Some? ==> state.value == (match decision
        case ApproveCreator => Qualified case DeferCreator => Deferred
        case RejectCreator => Rejected case BlockCreator => Blocked)
      ensures creators == if state.Some? then old(creators)[did := state.value] else old(creators)
      ensures exclusions == if state == Some(Blocked) then old(exclusions) + {Exclusion("creator", did, "all")}
                            else old(exclusions)
      ensures rows.Keys == old(rows).Keys
      ensures forall id | id in rows && !(state == Some(Blocked) && WaitsFor(old(rows)[id], did)) ::
        rows[id] == old(rows)[id]
      ensures state == Some(Blocked) ==> forall id | id in rows && WaitsFor(old(rows)[id], did) ::
        rows[id] == old(rows)[id].(task := old(rows)[id].task.(status := Cancelled))
    {
      if did !in creators || creators[did].Deleted? {
        return None;
      }
      creators := creators[did := ReviewTarget(decision)];
      if decision.BlockCreator? {
        exclusions := exclusions + {Exclusion("creator", did, "all")};
        rows := map id | id in rows :: CancelRow(rows[id], EntityOf(did));
      }
      return Some(ReviewTarget(decision));
    }

    method AddExclusion(exclusion: Exclusion)
      modifies this
      ensures View() == Apply(old(View()), Op.DoExclude(exclusion))
    {
      exclusions := exclusions + {exclusion};
    }

    method RequestRemoval(request: RequestId, subjectType: string, subjectKey: string)
      requires request !in removals
      modifies this
      ensures View() == Apply(old(View()), DoRequest(request, subjectType, subjectKey))
    {
      removals := removals[request := Removal(subjectType, subjectKey, false)];
    }

    method ApproveRemoval(request: RequestId) returns (found: bool)
      modifies this
      ensures View() == Apply(old(View()), DoApprove(request))
      ensures found <==> IsOpen(old(View()), request)
      ensures found ==> var removal := old(removals)[request];
        removals == old(removals)[request := Removal(removal.subjectType, removal.subjectKey, true)]
        && exclusions == old(exclusions) + {Exclusion(removal.subjectType, removal.subjectKey, "all")}
        && request in outbox && rows == old(rows)
        && creators == (if removal.subjectType == "creator" && removal.subjectKey in old(creators)
                        then old(creators)[removal.subjectKey := Deleted] else old(creators))
    {
      if request !in removals || removals[request].approved {
        return false;
      }
      var removal := removals[request];
      exclusions := exclusions + {Exclusion(removal.subjectType, removal.subjectKey, "all")};
      if removal.subjectType == "creator" && removal.subjectKey in creators {
        creators := creators[removal.subjectKey := Deleted];
      }
      if request !in outbox {
        outbox := outbox + multiset{request};
      }
      removals := removals[request := removal.(approved := true)];
      return true;
    }

    method HydrateCreator(did: Did, unsafe: bool)
      modifies this
      ensures View() == Apply(old(View()), DoHydrate(did, unsafe))
    {
      var previous := if did in creators then Some(creators[did]) else None;
      var target := Hydrated;
      if previous == Some(Deleted) {
        target := Deleted;
      } else if previous == Some(Blocked) || unsafe {
        target := Blocked;
      } else if previous.Some? && previous.value in {Qualified, NeedsReview, Deferred, Rejected} {
        target := previous.value;
      }
      creators := creators[did := target];
    }

    method RecordCreatorProfile(did: Did, state: CreatorState)
      modifies this
      ensures View() == Apply(old(View()), DoProfile(did, state))
    {
      if did in creators {
        creators := creators[did := state];
      }
    }
  }
}
