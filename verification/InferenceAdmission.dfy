/**
 Bounded admission to the model worker. A request waits in a bounded queue for one of
 `capacity` slots, runs its encoder job on the worker pool, and may end by success, encoder
 error, queue timeout, inference timeout or cancellation at any moment. One operation below
 is the code between two suspension points, so operations of requests interleave freely.
 */
module InferenceAdmission {
  import opened Wrappers

  type RequestId = nat

  /** How an encoder job ended; a timeout raised by the encoder itself takes its own branch. */
  datatype JobResult = Encoded | Failed | RaisedTimeout

  datatype Job = Busy | Done(result: JobResult)

  /** `Abandoned`: the caller has its answer, but the slot still waits for the job to end. */
  datatype Phase = Waiting | Running(job: Job) | Abandoned(job: Job) | Over

  /** The counters of the service, every request's phase, and what has happened so far. */
  datatype Gate = Gate(
    capacity: nat, maxPending: nat, free: nat, pending: nat, active: int,
    phases: map<RequestId, Phase>,
    acquired: multiset<RequestId>, returned: multiset<RequestId>, closed: multiset<RequestId>)

  function NewGate(capacity: nat, maxPending: nat): Gate {
    Gate(capacity, maxPending, capacity, 0, 0, map[], multiset{}, multiset{}, multiset{})
  }

  predicate Holds(p: Phase) {
    p.Running? || p.Abandoned?
  }

  // ----- the operations -----

  function Arrive(g: Gate, r: RequestId): Gate {
    if g.pending >= g.maxPending then
      g.(phases := g.phases[r := Over], closed := g.closed + multiset{r})
    else g.(phases := g.phases[r := Waiting], pending := g.pending + 1)
  }

  /** Queue timeout or cancellation while waiting for a slot. */
  function LeaveQueue(g: Gate, r: RequestId): Gate
    requires g.pending > 0
  {
    g.(phases := g.phases[r := Over], pending := g.pending - 1, closed := g.closed + multiset{r})
  }

  function Acquire(g: Gate, r: RequestId): Gate
    requires g.pending > 0 && g.free > 0
  {
    g.(pending := g.pending - 1, free := g.free - 1, active := g.active + 1,
       acquired := g.acquired + multiset{r})
  }

  function ReturnSlot(g: Gate, r: RequestId): Gate {
    g.(free := g.free + 1, active := g.active - 1, returned := g.returned + multiset{r},
       phases := g.phases[r := Over])
  }

  function Submit(g: Gate, r: RequestId): Gate
    requires g.pending > 0 && g.free > 0
  {
    var h := Acquire(g, r);
    h.(phases := h.phases[r := Running(Busy)])
  }

  /** The executor refuses the job: the image is closed and the slot goes straight back. */
  function SubmitFails(g: Gate, r: RequestId): Gate
    requires g.pending > 0 && g.free > 0
  {
    var h := ReturnSlot(Acquire(g, r), r);
    h.(closed := h.closed + multiset{r})
  }

  function JobEnds(g: Gate, r: RequestId, result: JobResult): Gate
    requires r in g.phases && Holds(g.phases[r])
  {
    var job := Done(result);
    g.(phases := g.phases[r := if g.phases[r].Running? then Running(job) else Abandoned(job)],
       closed := g.closed + multiset{r})
  }

  /** The caller sees the result; a timeout raised by the encoder defers the release. */
  function Deliver(g: Gate, r: RequestId): Gate
    requires r in g.phases && g.phases[r].Running? && g.phases[r].job.Done?
  {
    if g.phases[r].job.result.RaisedTimeout? then g.(phases := g.phases[r := Abandoned(g.phases[r].job)])
    else ReturnSlot(g, r)
  }

  /** Inference timeout, or cancellation after submission. */
  function GiveUp(g: Gate, r: RequestId): Gate
    requires r in g.phases && g.phases[r].Running?
  {
    g.(phases := g.phases[r := Abandoned(g.phases[r].job)])
  }

  datatype Op =
    | DoArrive(r: RequestId)
    | DoLeaveQueue(r: RequestId)
    | DoSubmit(r: RequestId)
    | DoSubmitFails(r: RequestId)
    | DoJobEnds(r: RequestId, result: JobResult)
    | DoDeliver(r: RequestId)
    | DoGiveUp(r: RequestId)
    | DoRelease(r: RequestId)

  predicate Enabled(g: Gate, op: Op) {
    match op
    case DoArrive(r) => r !in g.phases
    case DoLeaveQueue(r) => g.pending > 0 && r in g.phases && g.phases[r].Waiting?
    case DoSubmit(r) => g.pending > 0 && g.free > 0 && r in g.phases && g.phases[r].Waiting?
    case DoSubmitFails(r) => g.pending > 0 && g.free > 0 && r in g.phases && g.phases[r].Waiting?
    case DoJobEnds(r, _) => r in g.phases && Holds(g.phases[r]) && g.phases[r].job.Busy?
    case DoDeliver(r) => r in g.phases && g.phases[r].Running? && g.phases[r].job.Done?
    case DoGiveUp(r) => r in g.phases && g.phases[r].Running?
    case DoRelease(r) => r in g.phases && g.phases[r].Abandoned? && g.phases[r].job.Done?
  }

  function Apply(g: Gate, op: Op): Gate
    requires Enabled(g, op)
  {
    match op
    case DoArrive(r) => Arrive(g, r)
    case DoLeaveQueue(r) => LeaveQueue(g, r)
    case DoSubmit(r) => Submit(g, r)
    case DoSubmitFails(r) => SubmitFails(g, r)
    case DoJobEnds(r, result) => JobEnds(g, r, result)
    case DoDeliver(r) => Deliver(g, r)
    case DoGiveUp(r) => GiveUp(g, r)
    case DoRelease(r) => ReturnSlot(g, r)
  }

  // ----- the invariant -----

  function Holders(phases: map<RequestId, Phase>): set<RequestId> {
    set r | r in phases && Holds(phases[r])
  }

  function Waiters(phases: map<RequestId, Phase>): set<RequestId> {
    set r | r in phases && phases[r].Waiting?
  }

  function BusyJobs(phases: map<RequestId, Phase>): set<RequestId> {
    set r | r in phases && Holds(phases[r]) && phases[r].job.Busy?
  }

  /** Slots are conserved, and the counters say what the phases say. */
  ghost predicate Counted(g: Gate) {
    && g.free + |Holders(g.phases)| == g.capacity
    && g.active == |Holders(g.phases)|
    && g.pending == |Waiters(g.phases)| <= g.maxPending
  }

  /** A holder has taken one slot and not returned it; whoever is done has returned what it took. */
  predicate SlotPaired(g: Gate, r: RequestId) {
    if r in g.phases && Holds(g.phases[r]) then g.acquired[r] == 1 && g.returned[r] == 0
    else g.acquired[r] == g.returned[r] <= if r in g.phases && g.phases[r].Over? then 1 else 0
  }

  /** The image of a request is closed once, when its job has ended or will never run. */
  predicate ImageClosed(g: Gate, r: RequestId) {
    g.closed[r] == if r in g.phases && (g.phases[r].Over? || (Holds(g.phases[r]) && g.phases[r].job.Done?))
                   then 1 else 0
  }

  ghost predicate SlotsPaired(g: Gate) {
    forall r: RequestId :: SlotPaired(g, r)
  }

  ghost predicate ImagesClosed(g: Gate) {
    forall r: RequestId :: ImageClosed(g, r)
  }

  ghost predicate Valid(g: Gate) {
    Counted(g) && SlotsPaired(g) && ImagesClosed(g)
  }

  function One(b: bool): nat {
    if b then 1 else 0
  }

  lemma PhaseSets(phases: map<RequestId, Phase>, r: RequestId, p: Phase)
    ensures Holders(phases[r := p]) == if Holds(p) then Holders(phases) + {r} else Holders(phases) - {r}
    ensures Waiters(phases[r := p]) == if p.Waiting? then Waiters(phases) + {r} else Waiters(phases) - {r}
  {
  }

  lemma AddOrRemove(s: set<RequestId>, r: RequestId)
    ensures |s + {r}| == |s| + One(r !in s)
    ensures |s - {r}| == |s| - One(r in s)
  {
    assert r in s ==> s + {r} == s;
    assert r !in s ==> s - {r} == s;
  }

  lemma PhaseChange(phases: map<RequestId, Phase>, r: RequestId, p: Phase)
    ensures |Holders(phases[r := p])|
         == |Holders(phases)| + One(Holds(p)) - One(r in phases && Holds(phases[r]))
    ensures |Waiters(phases[r := p])|
         == |Waiters(phases)| + One(p.Waiting?) - One(r in phases && phases[r].Waiting?)
  {
    PhaseSets(phases, r, p);
    AddOrRemove(Holders(phases), r);
    AddOrRemove(Waiters(phases), r);
  }

  lemma StepKeepsCounted(g: Gate, op: Op)
    requires Counted(g) && Enabled(g, op)
    ensures Counted(Apply(g, op))
  {
    var h := Apply(g, op);
    var p := h.phases[op.r];
    assert h.phases == g.phases[op.r := p];
    PhaseChange(g.phases, op.r, p);
    assert h.free + One(Holds(p)) == g.free + One(op.r in g.phases && Holds(g.phases[op.r]));
    assert h.active - One(Holds(p)) == g.active - One(op.r in g.phases && Holds(g.phases[op.r]));
    assert h.pending + One(op.r in g.phases && g.phases[op.r].Waiting?) == g.pending + One(p.Waiting?);
  }

  /** An operation concerns one request only. */
  lemma OthersUntouched(g: Gate, op: Op, r: RequestId)
    requires Enabled(g, op) && r != op.r
    ensures var h := Apply(g, op);
            && (r in h.phases <==> r in g.phases) && (r in g.phases ==> h.phases[r] == g.phases[r])
            && h.acquired[r] == g.acquired[r] && h.returned[r] == g.returned[r] && h.closed[r] == g.closed[r]
  {
  }

  lemma StepKeepsPairs(g: Gate, op: Op)
    requires SlotsPaired(g) && Enabled(g, op)
    ensures SlotsPaired(Apply(g, op))
  {
    forall r: RequestId ensures SlotPaired(Apply(g, op), r) {
      assert SlotPaired(g, r);
      if r != op.r {
        OthersUntouched(g, op, r);
      }
    }
  }

  lemma StepKeepsImages(g: Gate, op: Op)
    requires ImagesClosed(g) && Enabled(g, op)
    ensures ImagesClosed(Apply(g, op))
  {
    forall r: RequestId ensures ImageClosed(Apply(g, op), r) {
      assert ImageClosed(g, r);
      if r != op.r {
        OthersUntouched(g, op, r);
      }
    }
  }

  // ----- whole runs -----

  predicate Legal(g: Gate, ops: seq<Op>)
    decreases |ops|
  {
    ops == [] || (Enabled(g, ops[0]) && Legal(Apply(g, ops[0]), ops[1..]))
  }

  function Run(g: Gate, ops: seq<Op>): Gate
    requires Legal(g, ops)
    decreases |ops|
  {
    if ops == [] then g else Run(Apply(g, ops[0]), ops[1..])
  }

  lemma {:induction false} RunKeepsValid(g: Gate, ops: seq<Op>)
    requires Valid(g) && Legal(g, ops)
    ensures Valid(Run(g, ops))
    ensures Run(g, ops).capacity == g.capacity && Run(g, ops).maxPending == g.maxPending
    decreases |ops|
  {
    if ops != [] {
      StepKeepsCounted(g, ops[0]);
      StepKeepsPairs(g, ops[0]);
      StepKeepsImages(g, ops[0]);
      RunKeepsValid(Apply(g, ops[0]), ops[1..]);
    }
  }

  /**
   Over every interleaving: free permits and held slots add up to the capacity, unfinished
   jobs never exceed it even after callers gave up, and the queue stays within its bound.
   */
  lemma SlotsConserved(capacity: nat, maxPending: nat, ops: seq<Op>)
    requires Legal(NewGate(capacity, maxPending), ops)
    ensures var g := Run(NewGate(capacity, maxPending), ops);
            && g.free + |Holders(g.phases)| == capacity
            && g.active == |Holders(g.phases)|
            && |BusyJobs(g.phases)| <= capacity
            && g.pending == |Waiters(g.phases)| <= maxPending
  {
    var g := Run(NewGate(capacity, maxPending), ops);
    NewGateIsValid(capacity, maxPending);
    RunKeepsValid(NewGate(capacity, maxPending), ops);
    CardinalityMonotone(BusyJobs(g.phases), Holders(g.phases));
  }

  lemma NewGateIsValid(capacity: nat, maxPending: nat)
    ensures Valid(NewGate(capacity, maxPending))
  {
    assert Holders(map[]) == {} && Waiters(map[]) == {};
  }

  /** No slot is returned twice or before its job has ended; a finished request has returned its own. */
  lemma ReturnedExactlyOnce(capacity: nat, maxPending: nat, ops: seq<Op>, r: RequestId)
    requires Legal(NewGate(capacity, maxPending), ops)
    ensures var g := Run(NewGate(capacity, maxPending), ops);
            && g.returned[r] <= g.acquired[r] <= 1
            && (r in BusyJobs(g.phases) ==> g.acquired[r] == 1 && g.returned[r] == 0 && g.closed[r] == 0)
            && (r !in Holders(g.phases) ==> g.returned[r] == g.acquired[r])
            && (r in g.phases && g.phases[r].Over? ==> g.closed[r] == 1)
  {
    NewGateIsValid(capacity, maxPending);
    RunKeepsValid(NewGate(capacity, maxPending), ops);
    var g := Run(NewGate(capacity, maxPending), ops);
    assert SlotPaired(g, r) && ImageClosed(g, r);
  }

  /** When every request is over, all permits are back and both counters are zero. */
  lemma QuiescenceRestoresCapacity(capacity: nat, maxPending: nat, ops: seq<Op>)
    requires Legal(NewGate(capacity, maxPending), ops)
    requires forall r | r in Run(NewGate(capacity, maxPending), ops).phases ::
      Run(NewGate(capacity, maxPending), ops).phases[r].Over?
    ensures var g := Run(NewGate(capacity, maxPending), ops);
            g.free == capacity && g.active == 0 && g.pending == 0 && g.acquired == g.returned
  {
    var g := Run(NewGate(capacity, maxPending), ops);
    SlotsConserved(capacity, maxPending, ops);
    assert Holders(g.phases) == {} && Waiters(g.phases) == {};
    forall r: RequestId ensures g.acquired[r] == g.returned[r] {
      ReturnedExactlyOnce(capacity, maxPending, ops, r);
    }
  }

  // ----- the jobs, counted from the operations alone -----

  /** Which jobs run after `ops`, if those in `running` ran before: submitted, and not ended since. */
  function RunningAfter(running: set<RequestId>, ops: seq<Op>): set<RequestId>
    decreases |ops|
  {
    if ops == [] then running else RunningAfter(Started(running, ops[0]), ops[1..])
  }

  function Started(running: set<RequestId>, op: Op): set<RequestId> {
    if op.DoSubmit? then running + {op.r} else if op.DoJobEnds? then running - {op.r} else running
  }

  /** The jobs submitted and not yet ended, whatever their callers did meanwhile. */
  function Unended(ops: seq<Op>): set<RequestId> {
    RunningAfter({}, ops)
  }

  lemma StepKeepsRunning(g: Gate, op: Op)
    requires Enabled(g, op)
    ensures BusyJobs(Apply(g, op).phases) == Started(BusyJobs(g.phases), op)
  {
    var h := Apply(g, op);
    assert h.phases == g.phases[op.r := h.phases[op.r]];
    forall r: RequestId ensures r in BusyJobs(h.phases) <==> r in Started(BusyJobs(g.phases), op) {
      if r != op.r {
        OthersUntouched(g, op, r);
      }
    }
  }

  lemma {:induction false} RunKeepsRunning(g: Gate, ops: seq<Op>)
    requires Legal(g, ops)
    ensures BusyJobs(Run(g, ops).phases) == RunningAfter(BusyJobs(g.phases), ops)
    decreases |ops|
  {
    if ops != [] {
      StepKeepsRunning(g, ops[0]);
      RunKeepsRunning(Apply(g, ops[0]), ops[1..]);
    }
  }

  /**
   Jobs that run never exceed the capacity, and each of them keeps its slot and its image until it
   ends, which it can do at any time, even when its caller has long given up.
   */
  lemma RunningJobsKeepSlots(capacity: nat, maxPending: nat, ops: seq<Op>)
    requires Legal(NewGate(capacity, maxPending), ops)
    ensures var g := Run(NewGate(capacity, maxPending), ops);
            && |Unended(ops)| <= capacity && |Unended(ops)| + g.free <= capacity
            && forall r | r in Unended(ops) ::
                 g.acquired[r] == 1 && g.returned[r] == 0 && g.closed[r] == 0
                 && forall result :: Enabled(g, DoJobEnds(r, result))
  {
    var g := Run(NewGate(capacity, maxPending), ops);
    RunKeepsRunning(NewGate(capacity, maxPending), ops);
    assert BusyJobs(map[]) == {};
    SlotsConserved(capacity, maxPending, ops);
    CardinalityMonotone(BusyJobs(g.phases), Holders(g.phases));
    forall r | r in Unended(ops)
      ensures g.acquired[r] == 1 && g.returned[r] == 0 && g.closed[r] == 0
    {
      ReturnedExactlyOnce(capacity, maxPending, ops, r);
    }
  }

  function Unfinished(phases: map<RequestId, Phase>): set<RequestId> {
    set r | r in phases && !phases[r].Over?
  }

  function Runners(phases: map<RequestId, Phase>): set<RequestId> {
    set r | r in phases && phases[r].Running?
  }

  /** The next operation that brings request `r` closer to its end. */
  function NextOp(g: Gate, r: RequestId): Op
    requires r in g.phases && !g.phases[r].Over?
  {
    match g.phases[r]
    case Waiting => DoLeaveQueue(r)
    case Running(Busy) => DoJobEnds(r, Encoded)
    case Running(Done(_)) => DoDeliver(r)
    case Abandoned(Busy) => DoJobEnds(r, Encoded)
    case Abandoned(Done(_)) => DoRelease(r)
  }

  lemma NextOpProgresses(g: Gate, r: RequestId)
    requires Counted(g) && r in g.phases && !g.phases[r].Over?
    ensures Enabled(g, NextOp(g, r))
    ensures var h := Apply(g, NextOp(g, r)).phases;
            || BusyJobs(h) < BusyJobs(g.phases)
            || (BusyJobs(h) == BusyJobs(g.phases) && Runners(h) < Runners(g.phases))
            || (BusyJobs(h) == BusyJobs(g.phases) && Runners(h) == Runners(g.phases)
                && Unfinished(h) < Unfinished(g.phases))
  {
    var op := NextOp(g, r);
    if g.phases[r].Waiting? {
      assert r in Waiters(g.phases);
    }
    var h := Apply(g, op);
    assert h.phases == g.phases[r := h.phases[r]];
    if op.DoJobEnds? {
      assert r in BusyJobs(g.phases) && r !in BusyJobs(h.phases);
    } else if op.DoDeliver? {
      assert r in Runners(g.phases) && r !in Runners(h.phases);
    } else {
      assert r in Unfinished(g.phases) && r !in Unfinished(h.phases);
    }
  }

  /** No deadlock: from every valid state some run of operations ends all requests. */
  lemma {:induction false} EveryStateDrains(g: Gate) returns (ops: seq<Op>)
    requires Valid(g)
    ensures Legal(g, ops)
    ensures forall r | r in Run(g, ops).phases :: Run(g, ops).phases[r].Over?
    decreases BusyJobs(g.phases), Runners(g.phases), Unfinished(g.phases)
  {
    if Unfinished(g.phases) == {} {
      assert forall r | r in g.phases :: r !in Unfinished(g.phases);
      ops := [];
    } else {
      var r :| r in Unfinished(g.phases);
      NextOpProgresses(g, r);
      var op := NextOp(g, r);
      StepKeepsCounted(g, op);
      StepKeepsPairs(g, op);
      StepKeepsImages(g, op);
      var rest := EveryStateDrains(Apply(g, op));
      ops := [op] + rest;
      assert ops[1..] == rest;
    }
  }

  // ----- the service -----

  class InferenceGate {
    const capacity: nat
    const maxPending: nat
    var freeSlots: nat
    var pendingInferences: nat
    var activeInferences: int
    var phases: map<RequestId, Phase>
    ghost var acquired: multiset<RequestId>
    ghost var returned: multiset<RequestId>
    ghost var closed: multiset<RequestId>

    constructor (capacity: nat, maxPending: nat)
      ensures View() == NewGate(capacity, maxPending)
    {
      this.capacity, this.maxPending := capacity, maxPending;
      freeSlots, pendingInferences, activeInferences, phases := capacity, 0, 0, map[];
      acquired, returned, closed := multiset{}, multiset{}, multiset{};
    }

    ghost function View(): Gate
      reads this
    {
      Gate(capacity, maxPending, freeSlots, pendingInferences, activeInferences, phases,
           acquired, returned, closed)
    }

    method EnterQueue(r: RequestId) returns (admitted: bool)
      requires Enabled(View(), DoArrive(r))
      modifies this
      ensures View() == Apply(old(View()), DoArrive(r))
      ensures admitted <==> old(pendingInferences) < maxPending
    {
      if pendingInferences >= maxPending {
        phases := phases[r := Over];
        closed := closed + multiset{r};
        return false;
      }
      pendingInferences := pendingInferences + 1;
      phases := phases[r := Waiting];
      return true;
    }

    method QueueTimeoutOrCancel(r: RequestId)
      requires Enabled(View(), DoLeaveQueue(r))
      modifies this
      ensures View() == Apply(old(View()), DoLeaveQueue(r))
    {
      pendingInferences := pendingInferences - 1;
      phases := phases[r := Over];
      closed := closed + multiset{r};
    }

    method SlotAcquired(r: RequestId, executorAccepts: bool)
      requires Enabled(View(), DoSubmit(r))
      modifies this
      ensures View() == Apply(old(View()), if executorAccepts then DoSubmit(r) else DoSubmitFails(r))
      ensures pendingInferences == old(pendingInferences) - 1
      ensures freeSlots == old(freeSlots) - if executorAccepts then 1 else 0
      ensures closed == if executorAccepts then old(closed) else old(closed) + multiset{r}
    {
      freeSlots := freeSlots - 1;
      acquired := acquired + multiset{r};
      pendingInferences := pendingInferences - 1;
      activeInferences := activeInferences + 1;
      assert View() == Acquire(old(View()), r);
      if executorAccepts {
        phases := phases[r := Running(Busy)];
      } else {
        closed := closed + multiset{r};
        ReleaseInferenceSlot(r);
      }
    }

    method ReleaseInferenceSlot(r: RequestId)
      modifies this
      ensures View() == ReturnSlot(old(View()), r)
      ensures freeSlots == old(freeSlots) + 1 && activeInferences == old(activeInferences) - 1
      ensures returned == old(returned) + multiset{r} && (acquired, closed) == old((acquired, closed))
      ensures pendingInferences == old(pendingInferences)
    {
      activeInferences := activeInferences - 1;
      freeSlots := freeSlots + 1;
      returned := returned + multiset{r};
      phases := phases[r := Over];
    }

    method EncodeSyncReturns(r: RequestId, result: JobResult)
      requires Enabled(View(), DoJobEnds(r, result))
      modifies this
      ensures View() == Apply(old(View()), DoJobEnds(r, result))
    {
      phases := phases[r := if phases[r].Running? then Running(Done(result)) else Abandoned(Done(result))];
      closed := closed + multiset{r};
    }

    method AwaitReturns(r: RequestId) returns (result: JobResult)
      requires Enabled(View(), DoDeliver(r))
      modifies this
      ensures View() == Apply(old(View()), DoDeliver(r))
      ensures result == old(phases[r].job.result)
      ensures freeSlots == old(freeSlots) + if result.RaisedTimeout? then 0 else 1
      ensures closed == old(closed) && acquired == old(acquired)
    {
      result := phases[r].job.result;
      if result.RaisedTimeout? {
        phases := phases[r := Abandoned(phases[r].job)];
      } else {
        ReleaseInferenceSlot(r);
      }
    }

    method TimeoutOrCancel(r: RequestId)
      requires Enabled(View(), DoGiveUp(r))
      modifies this
      ensures View() == Apply(old(View()), DoGiveUp(r))
      ensures (freeSlots, activeInferences) == old((freeSlots, activeInferences))
      ensures (acquired, returned, closed) == old((acquired, returned, closed))
    {
      phases := phases[r := Abandoned(phases[r].job)];
    }
  }
}
