/**
 The in-memory discovery store: the leased frontier queue, its exclusions and the recorded
 suggestions. The queue operations are functions on a `Store` value; the class updates the
 fields in place and is proved to do what those functions say.
 */
module Frontier {
  import opened Wrappers

  type TaskId = nat
  type CampaignId = nat
  type Worker = string
  type Did = string
  type EntityId = string

  datatype Action =
    | SampleCreatorMedia | ExpandOutboundFollows | ExpandSuggestedFollows
    | ExpandStarterPack | ExpandList | SampleFeed

  datatype Status = Pending | Retry | Leased | Completed | Dead | Cancelled

  datatype Task = Task(
    id: TaskId, campaign: CampaignId, entity: EntityId, action: Action, status: Status,
    depth: nat, priority: real, attempts: nat, maxAttempts: nat,
    runAfter: int, uuidRank: int, parent: Option<TaskId>, did: Did)
  {
    function Key(): TaskKey {
      TaskKey(campaign, entity, action)
    }

    /** A task is handed out at least once, even when its limit is zero. */
    function Limit(): nat {
      if maxAttempts == 0 then 1 else maxAttempts
    }
  }

  datatype TaskKey = TaskKey(campaign: CampaignId, entity: EntityId, action: Action)

  datatype Exclusion = Exclusion(subjectType: string, subjectKey: string, scope: string)

  /** What identifies a recorded suggestion; `parent` is a creator DID when there is one. */
  datatype Observation = Observation(
    campaign: CampaignId, did: Did, source: string, parent: Option<Did>, expansionEdge: bool)

  datatype Store = Store(
    tasks: map<TaskId, Task>, taskKeys: set<TaskKey>, leases: map<TaskId, Worker>,
    exclusions: set<Exclusion>, observations: seq<Observation>, counter: nat)

  const EMPTY_STORE := Store(map[], {}, map[], {}, [], 0)

  /** The graph entity of a creator; the source hashes the DID. */
  function EntityOf(did: Did): EntityId {
    "creator:" + did
  }

  predicate IsActive(status: Status) {
    status.Pending? || status.Retry? || status.Leased?
  }

  predicate IsWaiting(status: Status) {
    status.Pending? || status.Retry?
  }

  predicate IsExcluded(s: Store, subjectType: string, subjectKey: string, scope: string) {
    Exclusion(subjectType, subjectKey, scope) in s.exclusions
    || Exclusion(subjectType, subjectKey, "all") in s.exclusions
  }

  predicate CreatorExcluded(s: Store, did: Did) {
    IsExcluded(s, "creator", did, "discovery")
  }

  predicate HasActiveTask(s: Store, entity: EntityId, action: Action) {
    exists id | id in s.tasks ::
      s.tasks[id].entity == entity && s.tasks[id].action == action && IsActive(s.tasks[id].status)
  }

  // ----- queue operations on values -----

  predicate MayEnqueue(s: Store, t: Task) {
    && t.Key() !in s.taskKeys
    && !(t.did != "" && CreatorExcluded(s, t.did))
    && !HasActiveTask(s, t.entity, t.action)
  }

  /** `draft` carries the caller's arguments; its id, status and attempts are set here. */
  function Enqueue(s: Store, draft: Task): Store {
    if !MayEnqueue(s, draft) then s
    else
      var id := s.counter + 1;
      s.(counter := id,
         taskKeys := s.taskKeys + {draft.Key()},
         tasks := s.tasks[id := draft.(id := id, status := Pending, attempts := 0)])
  }

  function Lease(t: Task): Task {
    t.(status := Leased, attempts := t.attempts + 1)
  }

  predicate IsEligible(s: Store, campaign: Option<CampaignId>, id: TaskId) {
    && id in s.tasks && IsWaiting(s.tasks[id].status)
    && (campaign.Some? ==> s.tasks[id].campaign == campaign.value)
  }

  ghost predicate AllWaiting(s: Store, ids: set<TaskId>) {
    forall id | id in ids :: id in s.tasks && IsWaiting(s.tasks[id].status)
  }

  function Claim(s: Store, ids: set<TaskId>, worker: Worker): Store
    requires ids <= s.tasks.Keys
  {
    s.(tasks := LeaseIn(s.tasks, ids), leases := HandTo(s.leases, ids, worker))
  }

  function LeaseIn(tasks: map<TaskId, Task>, ids: set<TaskId>): map<TaskId, Task> {
    map id | id in tasks :: if id in ids then Lease(tasks[id]) else tasks[id]
  }

  function HandTo(leases: map<TaskId, Worker>, ids: set<TaskId>, worker: Worker): map<TaskId, Worker> {
    leases + map id | id in ids :: worker
  }

  predicate Holds(s: Store, id: TaskId, worker: Worker) {
    id in s.leases && s.leases[id] == worker && id in s.tasks
  }

  function Release(s: Store, id: TaskId, status: Status): Store
    requires id in s.tasks
  {
    s.(tasks := s.tasks[id := s.tasks[id].(status := status)], leases := s.leases - {id})
  }

  function Complete(s: Store, id: TaskId, worker: Worker): Store {
    if Holds(s, id, worker) then Release(s, id, Completed) else s
  }

  function FailStatus(t: Task): Status {
    if t.attempts >= t.maxAttempts then Dead else Retry
  }

  function Fail(s: Store, id: TaskId, worker: Worker): Store {
    if Holds(s, id, worker) then Release(s, id, FailStatus(s.tasks[id])) else s
  }

  function Exclude(s: Store, e: Exclusion): Store {
    s.(exclusions := s.exclusions + {e})
  }

  function Record(s: Store, o: Observation): Store {
    if o in s.observations then s else s.(observations := s.observations + [o])
  }

  function ChildDids(s: Store, creator: Did): set<Did> {
    set o | o in s.observations && o.parent == Some(creator) && o.expansionEdge && o.did != creator :: o.did
  }

  // ----- the order of claims -----

  function SortPriority(t: Task, preferHigh: bool): real {
    if preferHigh then -t.priority else t.priority
  }

  predicate Before(a: Task, b: Task, preferHigh: bool) {
    var p, q := SortPriority(a, preferHigh), SortPriority(b, preferHigh);
    p < q || (p == q && (a.runAfter < b.runAfter || (a.runAfter == b.runAfter && a.uuidRank <= b.uuidRank)))
  }

  predicate LeasedFrom(before: Task, after: Task) {
    after == before.(status := Leased, attempts := before.attempts + 1)
  }

  /** Not worse than a task left out: of higher priority, or of lower when exploring. */
  predicate NotWorse(tasks: map<TaskId, Task>, i: TaskId, id: TaskId, preferHigh: bool) {
    && i in tasks && id in tasks
    && (preferHigh ==> tasks[i].priority >= tasks[id].priority)
    && (!preferHigh ==> tasks[i].priority <= tasks[id].priority)
    && (tasks[i].priority == tasks[id].priority ==> tasks[i].runAfter <= tasks[id].runAfter)
  }

  predicate Distinct(ids: seq<TaskId>) {
    forall i, j | 0 <= i < j < |ids| :: ids[i] != ids[j]
  }

  ghost predicate InOrder(tasks: map<TaskId, Task>, ids: seq<TaskId>, preferHigh: bool) {
    && (forall i | 0 <= i < |ids| :: ids[i] in tasks)
    && forall i, j | 0 <= i < j < |ids| :: Before(tasks[ids[i]], tasks[ids[j]], preferHigh)
  }

  function SetOf(ids: seq<TaskId>): set<TaskId> {
    set id | id in ids
  }

  lemma NextIsNew(ids: seq<TaskId>, i: nat)
    requires Distinct(ids) && i < |ids|
    ensures ids[i] !in ids[..i] && ids[..i + 1] == ids[..i] + [ids[i]]
  {
  }

  /** `ids` are the first `limit` eligible tasks in claim order. */
  ghost predicate IsSelection(
    s: Store, ids: seq<TaskId>, limit: nat, campaign: Option<CampaignId>, preferHigh: bool)
  {
    && Distinct(ids) && |ids| <= limit
    && (forall i | 0 <= i < |ids| :: IsEligible(s, campaign, ids[i]))
    && InOrder(s.tasks, ids, preferHigh)
    && (forall id | IsEligible(s, campaign, id) && id !in ids ::
          |ids| == limit && forall i | 0 <= i < |ids| :: Before(s.tasks[ids[i]], s.tasks[id], preferHigh))
  }

  /** Leasing one task after another is claiming them all at once. */
  lemma ClaimOneMore(s: Store, ids: seq<TaskId>, id: TaskId, worker: Worker)
    requires SetOf(ids) <= s.tasks.Keys && id in s.tasks && id !in ids
    ensures var t := Claim(s, SetOf(ids), worker);
            SetOf(ids + [id]) <= s.tasks.Keys && id in t.tasks && t.tasks[id] == s.tasks[id]
            && Claim(s, SetOf(ids + [id]), worker)
               == t.(tasks := t.tasks[id := Lease(t.tasks[id])], leases := t.leases[id := worker])
  {
    assert SetOf(ids + [id]) == SetOf(ids) + {id};
    assert id !in SetOf(ids);
    LeaseOneMore(s.tasks, SetOf(ids), id);
    HandOneMore(s.leases, SetOf(ids), id, worker);
  }

  lemma LeaseOneMore(tasks: map<TaskId, Task>, ids: set<TaskId>, id: TaskId)
    requires id in tasks && id !in ids
    ensures LeaseIn(tasks, ids)[id] == tasks[id]
    ensures LeaseIn(tasks, ids + {id}) == LeaseIn(tasks, ids)[id := Lease(tasks[id])]
  {
    hide Lease;
  }

  lemma HandOneMore(leases: map<TaskId, Worker>, ids: set<TaskId>, id: TaskId, worker: Worker)
    ensures HandTo(leases, ids + {id}, worker) == HandTo(leases, ids, worker)[id := worker]
  {
  }

  lemma PrefixIsSelection(
    s: Store, order: seq<TaskId>, picked: seq<TaskId>, limit: nat, campaign: Option<CampaignId>, preferHigh: bool)
    requires Distinct(order) && InOrder(s.tasks, order, preferHigh)
    requires forall id :: id in order <==> IsEligible(s, campaign, id)
    requires picked == if limit < |order| then order[..limit] else order
    ensures IsSelection(s, picked, limit, campaign, preferHigh)
  {
    assert forall i | 0 <= i < |picked| :: order[i] in picked;
    forall id | IsEligible(s, campaign, id) && id !in picked
      ensures |picked| == limit && forall i | 0 <= i < |picked| :: Before(s.tasks[picked[i]], s.tasks[id], preferHigh)
    {
      var k :| 0 <= k < |order| && order[k] == id;
    }
  }

  lemma SelectionTakesTheBest(
    s: Store, ids: seq<TaskId>, limit: nat, campaign: Option<CampaignId>, preferHigh: bool)
    requires IsSelection(s, ids, limit, campaign, preferHigh)
    ensures forall i, id | 0 <= i < |ids| && IsEligible(s, campaign, id) && id !in ids ::
      NotWorse(s.tasks, ids[i], id, preferHigh)
    ensures |ids| < limit ==> forall id | IsEligible(s, campaign, id) :: id in ids
  {
    forall i, id | 0 <= i < |ids| && IsEligible(s, campaign, id) && id !in ids
      ensures NotWorse(s.tasks, ids[i], id, preferHigh)
    {
      assert Before(s.tasks[ids[i]], s.tasks[id], preferHigh);
    }
  }

  // ----- the queue invariant -----

  predicate WellCounted(t: Task) {
    match t.status
    case Pending => t.attempts == 0
    case Retry => 0 < t.attempts < t.Limit()
    case Leased => 0 < t.attempts <= t.Limit()
    case Completed => 0 < t.attempts <= t.Limit()
    case Dead => t.attempts == t.Limit()
    case Cancelled => t.attempts < t.Limit()
  }

  ghost predicate CountsFit(s: Store) {
    forall id | id in s.tasks :: s.tasks[id].id == id && 1 <= id <= s.counter && WellCounted(s.tasks[id])
  }

  /** The lease keys are exactly the leased tasks. */
  ghost predicate LeasesFit(s: Store) {
    && s.leases.Keys <= s.tasks.Keys
    && forall id | id in s.tasks :: id in s.leases <==> s.tasks[id].status.Leased?
  }

  predicate SameKey(tasks: map<TaskId, Task>, i: TaskId, j: TaskId) {
    i in tasks && j in tasks && tasks[i].Key() == tasks[j].Key()
  }

  /** Each (campaign, entity, action) was enqueued for at most one task. */
  ghost predicate KeysFit(s: Store) {
    && (forall id | id in s.tasks :: s.tasks[id].Key() in s.taskKeys)
    && (forall i, j {:trigger SameKey(s.tasks, i, j)} | SameKey(s.tasks, i, j) :: i == j)
  }

  predicate Rivals(tasks: map<TaskId, Task>, i: TaskId, j: TaskId) {
    && i in tasks && j in tasks
    && tasks[i].entity == tasks[j].entity && tasks[i].action == tasks[j].action
    && IsActive(tasks[i].status) && IsActive(tasks[j].status)
  }

  /** At most one pending, retry or leased task per entity and action. */
  ghost predicate OneActive(s: Store) {
    forall i, j {:trigger Rivals(s.tasks, i, j)} | Rivals(s.tasks, i, j) :: i == j
  }

  ghost predicate Valid(s: Store) {
    CountsFit(s) && LeasesFit(s) && KeysFit(s) && OneActive(s)
  }

  datatype Op =
    | DoCreateCampaign
    | DoEnqueue(draft: Task)
    | DoClaim(ids: set<TaskId>, worker: Worker)
    | DoComplete(id: TaskId, worker: Worker)
    | DoFail(id: TaskId, worker: Worker)
    | DoExclude(exclusion: Exclusion)
    | DoRecord(observation: Observation)

  /** Any waiting tasks may be claimed together, in whatever order they were picked. */
  ghost predicate OpEnabled(s: Store, op: Op) {
    op.DoClaim? ==> AllWaiting(s, op.ids)
  }

  function ApplyOp(s: Store, op: Op): Store
    requires op.DoClaim? ==> op.ids <= s.tasks.Keys
  {
    match op
    case DoCreateCampaign => s.(counter := s.counter + 1)
    case DoEnqueue(draft) => Enqueue(s, draft)
    case DoClaim(ids, worker) => Claim(s, ids, worker)
    case DoComplete(id, worker) => Complete(s, id, worker)
    case DoFail(id, worker) => Fail(s, id, worker)
    case DoExclude(e) => Exclude(s, e)
    case DoRecord(o) => Record(s, o)
  }

  lemma EnqueueKeepsValid(s: Store, draft: Task)
    requires Valid(s)
    ensures Valid(Enqueue(s, draft))
  {
    if MayEnqueue(s, draft) {
      var t := Enqueue(s, draft);
      assert t.counter !in s.tasks;
      forall i, j | SameKey(t.tasks, i, j) ensures i == j {
        assert i in s.tasks && j in s.tasks ==> SameKey(s.tasks, i, j);
      }
      forall i, j | Rivals(t.tasks, i, j) ensures i == j {
        assert i in s.tasks && j in s.tasks ==> Rivals(s.tasks, i, j);
      }
    }
  }

  lemma ClaimKeepsValid(s: Store, ids: set<TaskId>, worker: Worker)
    requires Valid(s) && AllWaiting(s, ids)
    ensures Valid(Claim(s, ids, worker))
  {
    ClaimedTasks(s, ids, worker);
    var t := Claim(s, ids, worker);
    assert CountsFit(t) by {
      forall id | id in t.tasks ensures t.tasks[id].id == id && 1 <= id <= t.counter && WellCounted(t.tasks[id]) {
        assert WellCounted(s.tasks[id]);
      }
    }
    assert LeasesFit(t);
    SameFaces(s, t);
  }

  /** The uniqueness clauses survive any change that keeps keys and activity. */
  lemma SameFaces(s: Store, t: Store)
    requires KeysFit(s) && OneActive(s) && t.taskKeys == s.taskKeys && t.tasks.Keys == s.tasks.Keys
    requires forall id | id in s.tasks ::
      t.tasks[id].Key() == s.tasks[id].Key()
      && (IsActive(t.tasks[id].status) ==> IsActive(s.tasks[id].status))
    ensures KeysFit(t) && OneActive(t)
  {
    forall i, j | SameKey(t.tasks, i, j) ensures i == j {
      assert SameKey(s.tasks, i, j);
    }
    forall i, j | Rivals(t.tasks, i, j) ensures i == j {
      assert s.tasks[i].Key() == t.tasks[i].Key() && s.tasks[j].Key() == t.tasks[j].Key();
      assert Rivals(s.tasks, i, j);
    }
  }

  lemma ClaimedTasks(s: Store, ids: set<TaskId>, worker: Worker)
    requires Valid(s) && AllWaiting(s, ids)
    ensures Claim(s, ids, worker).tasks.Keys == s.tasks.Keys
    ensures forall id | id in s.tasks ::
      && Claim(s, ids, worker).tasks[id] == (if id in ids then Lease(s.tasks[id]) else s.tasks[id])
      && (id in ids ==> IsWaiting(s.tasks[id].status))
      && (id in Claim(s, ids, worker).leases <==> id in ids || id in s.leases)
    ensures Claim(s, ids, worker).leases.Keys <= s.tasks.Keys
  {
  }

  lemma ReleaseKeepsValid(s: Store, id: TaskId, status: Status)
    requires Valid(s) && id in s.leases
    requires WellCounted(s.tasks[id].(status := status)) && !status.Leased?
    ensures Valid(Release(s, id, status))
  {
    SameFaces(s, Release(s, id, status));
  }

  /** Every queue operation, in any order, keeps the queue invariant. */
  lemma OpKeepsValid(s: Store, op: Op)
    requires Valid(s) && OpEnabled(s, op)
    ensures Valid(ApplyOp(s, op))
  {
    match op
    case DoCreateCampaign =>
    case DoEnqueue(draft) => EnqueueKeepsValid(s, draft);
    case DoClaim(ids, worker) => ClaimKeepsValid(s, ids, worker);
    case DoComplete(id, worker) =>
      if Holds(s, id, worker) {
        ReleaseKeepsValid(s, id, Completed);
      }
    case DoFail(id, worker) =>
      if Holds(s, id, worker) {
        ReleaseKeepsValid(s, id, FailStatus(s.tasks[id]));
      }
    case DoExclude(_) =>
    case DoRecord(_) =>
  }

  /** Completed and dead are final, and only the lease holder can bring them about. */
  lemma OnlyTheHolderEndsTasks(s: Store, op: Op, id: TaskId)
    requires Valid(s) && OpEnabled(s, op) && id in s.tasks
    ensures id in ApplyOp(s, op).tasks
    ensures s.tasks[id].status in {Completed, Dead} ==> ApplyOp(s, op).tasks[id] == s.tasks[id]
    ensures s.tasks[id].status !in {Completed, Dead} && ApplyOp(s, op).tasks[id].status in {Completed, Dead} ==>
      && (op.DoComplete? || op.DoFail?) && op.id == id && Holds(s, id, op.worker)
      && (op.DoFail? <==> ApplyOp(s, op).tasks[id].status == Dead)
  {
  }

  // ----- whole runs -----

  ghost predicate LegalOps(s: Store, ops: seq<Op>)
    decreases |ops|
  {
    ops == [] || (OpEnabled(s, ops[0]) && LegalOps(ApplyOp(s, ops[0]), ops[1..]))
  }

  ghost function RunOps(s: Store, ops: seq<Op>): Store
    requires LegalOps(s, ops)
    decreases |ops|
  {
    if ops == [] then s else RunOps(ApplyOp(s, ops[0]), ops[1..])
  }

  function Claims(ops: seq<Op>): nat {
    if ops == [] then 0 else (if ops[0].DoClaim? then |ops[0].ids| else 0) + Claims(ops[1..])
  }

  /** The attempts of the tasks numbered up to `n`. */
  function Attempts(tasks: map<TaskId, Task>, n: nat): nat {
    if n == 0 then 0 else Attempts(tasks, n - 1) + if n in tasks then tasks[n].attempts else 0
  }

  function TotalAttempts(s: Store): nat {
    Attempts(s.tasks, s.counter)
  }

  lemma {:induction false} AttemptsAgree(a: map<TaskId, Task>, b: map<TaskId, Task>, n: nat)
    requires forall id | 0 < id <= n ::
      (if id in a then a[id].attempts else 0) == (if id in b then b[id].attempts else 0)
    ensures Attempts(a, n) == Attempts(b, n)
  {
    if n > 0 {
      AttemptsAgree(a, b, n - 1);
    }
  }

  lemma {:induction false} AttemptsAfterClaim(s: Store, ids: set<TaskId>, worker: Worker, n: nat)
    requires ids <= s.tasks.Keys && (forall id | id in ids :: id > 0)
    ensures Attempts(Claim(s, ids, worker).tasks, n)
         == Attempts(s.tasks, n) + |set id | id in ids && id <= n|
  {
    var upTo := set id | id in ids && id <= n;
    if n == 0 {
      assert upTo == {};
    } else {
      var below := set id | id in ids && id <= n - 1;
      AttemptsAfterClaim(s, ids, worker, n - 1);
      assert upTo == if n in ids then below + {n} else below;
    }
  }

  /** Each claim is paid for by one attempt of the claimed task, and nothing else changes the sum. */
  lemma OpCountsAttempts(s: Store, op: Op)
    requires Valid(s) && OpEnabled(s, op)
    ensures TotalAttempts(ApplyOp(s, op)) == TotalAttempts(s) + Claims([op])
  {
    var t := ApplyOp(s, op);
    assert [op][1..] == [];
    if op.DoClaim? {
      AttemptsAfterClaim(s, op.ids, op.worker, s.counter);
      assert op.ids == set id | id in op.ids && id <= s.counter;
    } else {
      AttemptsAgree(s.tasks, t.tasks, s.counter);
      assert t.counter == s.counter || t.counter == s.counter + 1;
      assert t.counter == s.counter + 1 ==> t.counter in t.tasks ==> t.tasks[t.counter].attempts == 0;
    }
  }

  /** The queue invariant holds after any run, and the claims of the run equal the attempts made. */
  lemma {:induction false} OpsKeepValid(s: Store, ops: seq<Op>)
    requires Valid(s) && LegalOps(s, ops)
    ensures Valid(RunOps(s, ops))
    ensures TotalAttempts(RunOps(s, ops)) == TotalAttempts(s) + Claims(ops)
    decreases |ops|
  {
    if ops != [] {
      OpKeepsValid(s, ops[0]);
      OpCountsAttempts(s, ops[0]);
      OpsKeepValid(ApplyOp(s, ops[0]), ops[1..]);
    }
  }

  lemma {:induction false} AttemptsBound(tasks: map<TaskId, Task>, n: nat, most: nat)
    requires forall id | id in tasks :: tasks[id].attempts <= most
    ensures Attempts(tasks, n) <= most * |set id | id in tasks && id <= n && id > 0|
  {
    var upTo := set id | id in tasks && id <= n && id > 0;
    if n == 0 {
      assert upTo == {};
    } else {
      var below := set id | id in tasks && id <= n - 1 && id > 0;
      AttemptsBound(tasks, n - 1, most);
      if n in tasks {
        assert upTo == below + {n};
        OneMore(most, |below|);
      } else {
        assert upTo == below;
      }
    }
  }

  lemma OneMore(x: nat, k: nat)
    ensures x * (k + 1) == x * k + x
  {
  }

  lemma MulMonotone(x: nat, k: nat, m: nat)
    requires k <= m
    ensures x * k <= x * m
  {
  }

  lemma {:induction false} NoMoreTasksThanKeys(s: Store, ids: set<TaskId>, keys: set<TaskKey>)
    requires Valid(s) && ids <= s.tasks.Keys
    requires forall id | id in ids :: s.tasks[id].Key() in keys
    ensures |ids| <= |keys|
    decreases |ids|
  {
    if ids != {} {
      var id :| id in ids;
      assert forall other | other in ids && s.tasks[other].Key() == s.tasks[id].Key() :: SameKey(s.tasks, other, id);
      NoMoreTasksThanKeys(s, ids - {id}, keys - {s.tasks[id].Key()});
    }
  }

  /** A task is claimed at most its limit, so all claims are bounded by the keys ever enqueued. */
  lemma ClaimsBound(s: Store, most: nat)
    requires Valid(s)
    requires forall id | id in s.tasks :: s.tasks[id].Limit() <= most
    ensures TotalAttempts(s) <= most * |s.taskKeys|
  {
    forall id | id in s.tasks ensures s.tasks[id].attempts <= most {
      assert WellCounted(s.tasks[id]);
    }
    AttemptsBound(s.tasks, s.counter, most);
    assert s.tasks.Keys == set id | id in s.tasks && id <= s.counter && id > 0;
    NoMoreTasksThanKeys(s, s.tasks.Keys, s.taskKeys);
    MulMonotone(most, |s.tasks.Keys|, |s.taskKeys|);
  }

  // ----- the exclusion barrier -----

  lemma OpKeepsBarrier(s: Store, op: Op, did: Did)
    requires Valid(s) && OpEnabled(s, op) && did != "" && CreatorExcluded(s, did)
    ensures CreatorExcluded(ApplyOp(s, op), did)
    ensures forall id | id in s.tasks :: id in ApplyOp(s, op).tasks && ApplyOp(s, op).tasks[id].did == s.tasks[id].did
    ensures forall id | id in ApplyOp(s, op).tasks && id !in s.tasks :: ApplyOp(s, op).tasks[id].did != did
  {
  }

  /** Exclusions are never lost, and an excluded creator never gets a new task. */
  lemma {:induction false} ExclusionBarrier(s: Store, ops: seq<Op>, did: Did)
    requires Valid(s) && LegalOps(s, ops) && did != "" && CreatorExcluded(s, did)
    ensures CreatorExcluded(RunOps(s, ops), did)
    ensures forall id | id in s.tasks :: id in RunOps(s, ops).tasks && RunOps(s, ops).tasks[id].did == s.tasks[id].did
    ensures forall id | id in RunOps(s, ops).tasks && id !in s.tasks :: RunOps(s, ops).tasks[id].did != did
    decreases |ops|
  {
    if ops != [] {
      OpKeepsValid(s, ops[0]);
      OpKeepsBarrier(s, ops[0], did);
      ExclusionBarrier(ApplyOp(s, ops[0]), ops[1..], did);
    }
  }

  // ----- the class -----

  class InMemoryDiscoveryStore {
    var tasks: map<TaskId, Task>
    var taskKeys: set<TaskKey>
    var leases: map<TaskId, Worker>
    var exclusions: set<Exclusion>
    var observations: seq<Observation>
    var counter: nat
    /** The place of the n-th generated uuid in text order. */
    const uuidRank: nat -> int

    constructor (uuidRank: nat -> int)
      ensures View() == EMPTY_STORE && this.uuidRank == uuidRank
    {
      tasks, taskKeys, leases := map[], {}, map[];
      exclusions, observations, counter := {}, [], 0;
      this.uuidRank := uuidRank;
    }

    function View(): Store
      reads this
    {
      Store(tasks, taskKeys, leases, exclusions, observations, counter)
    }

    method CreateCampaign() returns (campaign: CampaignId)
      modifies this
      ensures View() == ApplyOp(old(View()), DoCreateCampaign) && campaign == counter
    {
      counter := counter + 1;
      campaign := counter;
    }

    method EnqueueTask(
      campaign: CampaignId, entity: EntityId, action: Action, depth: nat, priority: real,
      maxAttempts: nat, parent: Option<TaskId>, did: Did, now: int)
      returns (inserted: bool, ghost draft: Task)
      modifies this
      ensures draft == Task(0, campaign, entity, action, Pending, depth, priority, 0, maxAttempts,
                            now, uuidRank(old(counter) + 1), parent, did)
      ensures View() == Enqueue(old(View()), draft)
      ensures inserted <==> MayEnqueue(old(View()), draft)
      ensures !inserted ==> View() == old(View())
      ensures inserted ==> tasks == old(tasks)[old(counter) + 1 := draft.(id := old(counter) + 1)]
      ensures inserted ==> taskKeys == old(taskKeys) + {TaskKey(campaign, entity, action)}
    {
      var key := TaskKey(campaign, entity, action);
      draft := Task(0, campaign, entity, action, Pending, depth, priority, 0, maxAttempts,
                    now, uuidRank(counter + 1), parent, did);
      if key in taskKeys {
        return false, draft;
      }
      if did != "" && IsExcluded(View(), "creator", did, "discovery") {
        return false, draft;
      }
      if exists id | id in tasks ::
           tasks[id].entity == entity && tasks[id].action == action && IsActive(tasks[id].status) {
        return false, draft;
      }
      taskKeys := taskKeys + {key};
      counter := counter + 1;
      tasks := tasks[counter := Task(counter, campaign, entity, action, Pending, depth, priority, 0,
                                     maxAttempts, now, uuidRank(counter), parent, did)];
      inserted := true;
    }

    /** The waiting tasks in claim order. */
    method SortedEligible(campaign: Option<CampaignId>, preferHigh: bool) returns (order: seq<TaskId>)
      ensures Distinct(order)
      ensures forall id :: id in order <==> IsEligible(View(), campaign, id)
      ensures InOrder(tasks, order, preferHigh)
    {
      order := [];
      var remaining := set id | id in tasks && IsEligible(View(), campaign, id);
      while remaining != {}
        invariant Distinct(order)
        invariant forall id :: id in order || id in remaining <==> IsEligible(View(), campaign, id)
        invariant forall i | 0 <= i < |order| :: order[i] !in remaining
        invariant InOrder(tasks, order, preferHigh)
        invariant forall i, id | 0 <= i < |order| && id in remaining ::
          Before(tasks[order[i]], tasks[id], preferHigh)
        decreases remaining
      {
        var best := First(remaining, preferHigh);
        order := order + [best];
        remaining := remaining - {best};
      }
    }

    method First(ids: set<TaskId>, preferHigh: bool) returns (best: TaskId)
      requires ids != {} && ids <= tasks.Keys
      ensures best in ids && forall id | id in ids :: Before(tasks[best], tasks[id], preferHigh)
    {
      best :| best in ids;
      var rest := ids - {best};
      while rest != {}
        invariant best in ids && rest <= ids
        invariant forall id | id in ids - rest :: Before(tasks[best], tasks[id], preferHigh)
        decreases rest
      {
        var id :| id in rest;
        if !Before(tasks[best], tasks[id], preferHigh) {
          best := id;
        }
        rest := rest - {id};
      }
    }

    method ClaimTasks(worker: Worker, limit: nat, campaign: Option<CampaignId>, preferHigh: bool)
      returns (claimed: seq<Task>, ghost ids: seq<TaskId>)
      modifies this
      ensures IsSelection(old(View()), ids, limit, campaign, preferHigh)
      ensures View() == Claim(old(View()), SetOf(ids), worker)
      ensures |claimed| == |ids| && forall i | 0 <= i < |ids| :: claimed[i] == Lease(old(tasks)[ids[i]])
      ensures forall i | 0 <= i < |ids| :: LeasedFrom(old(tasks)[ids[i]], claimed[i])
      ensures forall i, id | 0 <= i < |ids| && IsEligible(old(View()), campaign, id) && id !in ids ::
        NotWorse(old(tasks), ids[i], id, preferHigh)
      ensures |ids| < limit ==> forall id | IsEligible(old(View()), campaign, id) :: id in ids
    {
      var order := SortedEligible(campaign, preferHigh);
      var picked := if limit < |order| then order[..limit] else order;
      ids := picked;
      PrefixIsSelection(View(), order, picked, limit, campaign, preferHigh);
      SelectionTakesTheBest(View(), picked, limit, campaign, preferHigh);
      hide IsSelection, IsEligible, NotWorse, InOrder;
      claimed := LeaseAll(worker, picked);
    }

    method LeaseAll(worker: Worker, picked: seq<TaskId>) returns (claimed: seq<Task>)
      requires Distinct(picked) && forall i | 0 <= i < |picked| :: picked[i] in tasks
      modifies this
      ensures View() == Claim(old(View()), SetOf(picked), worker)
      ensures |claimed| == |picked|
      ensures forall i | 0 <= i < |picked| :: claimed[i] == Lease(old(tasks)[picked[i]])
    {
      claimed := [];
      ghost var before := View();
      assert View() == Claim(before, SetOf([]), worker);
      hide Claim, SetOf, Distinct, Lease;
      for i := 0 to |picked|
        invariant SetOf(picked[..i]) <= before.tasks.Keys
        invariant View() == Claim(before, SetOf(picked[..i]), worker)
        invariant |claimed| == i && forall j | 0 <= j < i :: claimed[j] == Lease(before.tasks[picked[j]])
      {
        NextIsNew(picked, i);
        var leased := LeaseOne(worker, picked[i], before, picked[..i]);
        claimed := claimed + [leased];
      }
      assert picked[..|picked|] == picked;
    }

    method LeaseOne(worker: Worker, id: TaskId, ghost before: Store, ghost done: seq<TaskId>) returns (leased: Task)
      requires id in before.tasks && id !in done && SetOf(done) <= before.tasks.Keys
      requires View() == Claim(before, SetOf(done), worker)
      modifies this
      ensures SetOf(done + [id]) <= before.tasks.Keys
      ensures View() == Claim(before, SetOf(done + [id]), worker) && leased == Lease(before.tasks[id])
    {
      ClaimOneMore(before, done, id, worker);
      hide Claim, SetOf;
      leased := Lease(tasks[id]);
      tasks := tasks[id := leased];
      leases := leases[id := worker];
    }

    method CompleteTask(id: TaskId, worker: Worker) returns (done: bool)
      requires Valid(View())
      modifies this
      ensures View() == Complete(old(View()), id, worker)
      ensures done <==> id in old(leases) && old(leases)[id] == worker
      ensures done ==> tasks == old(tasks)[id := old(tasks)[id].(status := Completed)] && leases == old(leases) - {id}
      ensures !done ==> View() == old(View())
    {
      if id !in leases || leases[id] != worker {
        return false;
      }
      tasks := tasks[id := tasks[id].(status := Completed)];
      leases := leases - {id};
      return true;
    }

    /** `None` is the error raised when the task is not leased by this worker. */
    method FailTask(id: TaskId, worker: Worker) returns (status: Option<Status>)
      requires Valid(View())
      modifies this
      ensures View() == Fail(old(View()), id, worker)
      ensures status.Some? <==> id in old(leases) && old(leases)[id] == worker
      ensures status.Some? ==>
        status.value == if old(tasks)[id].attempts >= old(tasks)[id].maxAttempts then Dead else Retry
      ensures status.Some? ==> tasks == old(tasks)[id := old(tasks)[id].(status := status.value)]
      ensures status.Some? ==> leases == old(leases) - {id}
      ensures status == None ==> View() == old(View())
    {
      if id !in leases || leases[id] != worker {
        return None;
      }
      var task := tasks[id];
      var next := if task.attempts >= task.maxAttempts then Dead else Retry;
      tasks := tasks[id := task.(status := next)];
      leases := leases - {id};
      return Some(next);
    }

    method AddExclusion(subjectType: string, subjectKey: string, scope: string)
      modifies this
      ensures View() == Exclude(old(View()), Exclusion(subjectType, subjectKey, scope))
      ensures exclusions == old(exclusions) + {Exclusion(subjectType, subjectKey, scope)}
    {
      exclusions := exclusions + {Exclusion(subjectType, subjectKey, scope)};
    }

    method RecordSuggestion(o: Observation) returns (inserted: bool)
      modifies this
      ensures View() == Record(old(View()), o)
      ensures inserted <==> o !in old(observations)
      ensures observations == if inserted then old(observations) + [o] else old(observations)
    {
      if o in observations {
        return false;
      }
      observations := observations + [o];
      return true;
    }
  }
}
