/**
 The discovery coordinator as a state machine. One step is the code between two `await`
 points of one coroutine, or one lock-protected section; steps of the tasks of a batch
 interleave in any order. Answers from the network, the model and the scorer are arguments
 of the steps.
 */
module Campaign {
  import opened Wrappers
  import opened Frontier

  datatype Config = Config(
    concurrency: nat, maxDepth: nat, creatorBudget: nat, mediaBudget: nat, maxTasks: nat,
    fanoutLimit: nat, outboundLimit: nat, suggestedLimit: nat, initialSample: nat, deepSample: nat,
    maxAttempts: nat, requestBudget: Option<nat>, outbound: FollowSource, suggested: FollowSource)

  /** Whether the configuration wants a follow source, and whether its oracle was supplied. */
  datatype FollowSource = FollowSource(enabled: bool, oracle: bool)

  const WORKER := "artsearch-discovery"

  /** How far the coroutine of a claimed task has come. */
  datatype Phase =
    | Started
    | Fetching                                  // asked for a first media sample, nothing reserved yet
    | Processing(media: nat)                    // so much of its first sample is with the media processor
    | DeepFetching
    | DeepProcessing(media: nat)
    | Scoring
    | AwaitingLock(limit: nat)
    | Expanding(left: nat, existing: set<Did>)  // holds the creator's lock, `left` suggestions to go

  datatype Stage = InitialSources | Draining

  datatype State = State(
    store: Store, campaign: CampaignId, stage: Stage,
    seen: set<Did>, uniqueCreators: nat, mediaCount: nat, requestsUsed: nat,
    remaining: nat, claimed: nat, completed: nat, retried: nat, dead: nat, expansionAdded: nat,
    requestBudgetExhausted: bool, jobs: map<TaskId, Phase>, locks: map<Did, TaskId>)

  function NewRun(store: Store, campaign: CampaignId, cfg: Config): State {
    State(store, campaign, InitialSources, {}, 0, 0, 0, cfg.maxTasks, 0, 0, 0, 0, 0, false, map[], map[])
  }

  // ----- ingesting a suggestion -----

  datatype Sampling = ShouldSample | SkipQualified(score: real) | Skip

  /** A hydrated suggestion with what the store and the safety rules say about its creator. */
  datatype Suggestion = Suggestion(
    did: Did, source: string, depth: nat, confidence: real, blockedByLabel: bool, allowed: bool,
    sampling: Sampling, expandWithoutSampling: bool, stamp: Stamp)

  /** Clock and uuid order of the tasks a step may create. */
  datatype Stamp = Stamp(now: int, outboundRank: int, suggestedRank: int)

  /** What a task creates belongs to the campaign of that task, which an older run may have enqueued. */
  function CampaignOf(s: State, parent: Option<TaskId>): CampaignId {
    if parent.Some? && parent.value in s.store.tasks then s.store.tasks[parent.value].campaign else s.campaign
  }

  function Draft(
    s: State, cfg: Config, did: Did, action: Action, depth: nat, priority: real,
    parent: Option<TaskId>, now: int, rank: int): Task
  {
    Task(0, CampaignOf(s, parent), EntityOf(did), action, Pending, depth, priority, 0, cfg.maxAttempts,
         now, rank, parent, did)
  }

  function EnqueueExpansion(
    s: State, cfg: Config, did: Did, depth: nat, priority: real, parent: Option<TaskId>, stamp: Stamp): Store
  {
    if depth >= cfg.maxDepth then s.store
    else
      var outbound := Draft(s, cfg, did, ExpandOutboundFollows, depth, priority, parent, stamp.now, stamp.outboundRank);
      var suggested :=
        Draft(s, cfg, did, ExpandSuggestedFollows, depth, priority, parent, stamp.now, stamp.suggestedRank);
      var first := if cfg.outbound.enabled && cfg.outbound.oracle then Enqueue(s.store, outbound) else s.store;
      if cfg.suggested.enabled && cfg.suggested.oracle then Enqueue(first, suggested) else first
  }

  /** The creator is counted and the suggestion recorded. */
  function Note(s: State, g: Suggestion, parentDid: Option<Did>, parent: Option<TaskId>): State {
    s.(seen := s.seen + {g.did},
       uniqueCreators := s.uniqueCreators + if g.did in s.seen then 0 else 1,
       store := Record(s.store, Observation(CampaignOf(s, parent), g.did, g.source, parentDid, parentDid.Some?)))
  }

  /** What becomes of a recorded creator: blocked, left alone, expanded or sampled. */
  function Schedule(t: State, cfg: Config, g: Suggestion, parent: Option<TaskId>): Store {
    if CreatorExcluded(t.store, g.did) || g.blockedByLabel then
      Exclude(t.store, Exclusion("creator", g.did, "all"))
    else if g.depth > cfg.maxDepth then t.store
    else if g.expandWithoutSampling && g.allowed then
      EnqueueExpansion(t, cfg, g.did, g.depth, g.confidence, parent, g.stamp)
    else
      match g.sampling
      case Skip => t.store
      case SkipQualified(score) => EnqueueExpansion(t, cfg, g.did, g.depth, score, parent, g.stamp)
      case ShouldSample =>
        Enqueue(t.store, Draft(t, cfg, g.did, SampleCreatorMedia, g.depth, g.confidence,
                               parent, g.stamp.now, g.stamp.outboundRank))
  }

  /** The part of ingestion after hydration, which runs without an `await`. */
  function Ingest(s: State, cfg: Config, g: Suggestion, parentDid: Option<Did>, parent: Option<TaskId>): State {
    if g.did !in s.seen && |s.seen| >= cfg.creatorBudget then s
    else
      var t := Note(s, g, parentDid, parent);
      t.(store := Schedule(t, cfg, g, parent))
  }

  // ----- the steps -----

  datatype Step =
    | IngestInitial(suggestion: Suggestion)
    | StartDraining
    | ClaimBatch(ids: set<TaskId>)
    | Begin(id: TaskId)
    | Reserve(id: TaskId, offered: nat)
    | Judge(id: TaskId, deepen: bool)
    | Score(id: TaskId, qualified: bool, score: real, stamp: Stamp)
    | Lock(id: TaskId)
    | Suggest(id: TaskId, suggestion: Suggestion)
    | SkipSuggestion(id: TaskId)
    | EndOracle(id: TaskId)
    | Throw(id: TaskId, overBudget: bool)
    | Request(sent: bool)
    | Operate(exclusion: Exclusion, cancelled: set<TaskId>)
    | Restart(campaign: CampaignId)

  /** An attempt is charged before it is sent; one that cannot be paid for raises and is not sent. */
  predicate MaySend(s: State, cfg: Config) {
    cfg.requestBudget.Some? ==> s.requestsUsed < cfg.requestBudget.value
  }

  function Min(a: nat, b: nat): nat {
    if a < b then a else b
  }

  function TaskOf(s: State, id: TaskId): Task
    requires id in s.store.tasks
  {
    s.store.tasks[id]
  }

  ghost predicate Enabled(s: State, cfg: Config, step: Step) {
    match step
    case IngestInitial(_) => s.stage.InitialSources?
    case StartDraining => s.stage.InitialSources? && !s.requestBudgetExhausted
    case ClaimBatch(ids) =>
      && s.stage.Draining? && s.jobs == map[] && s.remaining > 0 && !s.requestBudgetExhausted
      && ids != {} && |ids| <= Min(cfg.concurrency, s.remaining) && AllWaiting(s.store, ids)
    case Begin(id) => id in s.jobs && id in s.store.tasks && s.jobs[id].Started?
    case Reserve(id, _) => id in s.jobs && (s.jobs[id].Fetching? || s.jobs[id].DeepFetching?)
    case Judge(id, _) => id in s.jobs && (s.jobs[id].Processing? || s.jobs[id].DeepProcessing?)
    case Score(id, _, _, _) => id in s.jobs && id in s.store.tasks && s.jobs[id].Scoring?
    case Lock(id) =>
      id in s.jobs && id in s.store.tasks && s.jobs[id].AwaitingLock? && TaskOf(s, id).did !in s.locks
    case Suggest(id, g) =>
      && id in s.jobs && id in s.store.tasks && s.jobs[id].Expanding? && s.jobs[id].left > 0
      && !g.expandWithoutSampling
    case SkipSuggestion(id) => id in s.jobs && s.jobs[id].Expanding? && s.jobs[id].left > 0
    case EndOracle(id) => id in s.jobs && id in s.store.tasks && s.jobs[id].Expanding?
    case Throw(id, _) => id in s.jobs && id in s.store.tasks
    case Request(sent) => sent <==> MaySend(s, cfg)
    case Operate(_, cancelled) => AllWaiting(s.store, cancelled)
    case Restart(_) => true
  }

  /**
   What an operator does to the store while the run goes on: an exclusion, a block or a removal.
   Only a block cancels tasks, and only waiting ones.
   */
  function Intervene(s: Store, exclusion: Exclusion, cancelled: set<TaskId>): Store {
    Exclude(s, exclusion).(tasks := CancelIn(s.tasks, cancelled))
  }

  function CancelIn(tasks: map<TaskId, Task>, ids: set<TaskId>): map<TaskId, Task> {
    map id | id in tasks :: if id in ids then tasks[id].(status := Cancelled) else tasks[id]
  }

  function Unlock(s: State, id: TaskId): map<Did, TaskId> {
    map d | d in s.locks && s.locks[d] != id :: s.locks[d]
  }

  function Finish(s: State, id: TaskId): State {
    s.(store := Complete(s.store, id, WORKER), jobs := s.jobs - {id}, locks := Unlock(s, id),
       completed := s.completed + 1)
  }

  function Abort(s: State, id: TaskId): State
    requires id in s.store.tasks
  {
    var isDead := FailStatus(TaskOf(s, id)).Dead?;
    s.(store := Fail(s.store, id, WORKER), jobs := s.jobs - {id}, locks := Unlock(s, id),
       dead := s.dead + if isDead then 1 else 0, retried := s.retried + if isDead then 0 else 1)
  }

  function StartAll(ids: set<TaskId>): map<TaskId, Phase> {
    map id | id in ids :: Started
  }

  function SetPhase(s: State, id: TaskId, phase: Phase): State {
    s.(jobs := s.jobs[id := phase])
  }

  function BeginTask(s: State, cfg: Config, id: TaskId): State
    requires id in s.store.tasks
  {
    var task := TaskOf(s, id);
    match task.action
    case SampleCreatorMedia =>
      if task.did == "" then Abort(s, id)
      else if CreatorExcluded(s.store, task.did) then Finish(s, id)
      else if s.mediaCount >= cfg.mediaBudget then Finish(s, id)
      else SetPhase(s, id, Fetching)
    case ExpandOutboundFollows => BeginExpansion(s, cfg, id, cfg.outbound.oracle, cfg.outboundLimit)
    case ExpandSuggestedFollows => BeginExpansion(s, cfg, id, cfg.suggested.oracle, cfg.suggestedLimit)
    case _ => Abort(s, id)
  }

  function BeginExpansion(s: State, cfg: Config, id: TaskId, oracle: bool, limit: nat): State
    requires id in s.store.tasks
  {
    var task := TaskOf(s, id);
    if !oracle || task.depth >= cfg.maxDepth then Finish(s, id)
    else if task.did == "" then Abort(s, id)
    else if CreatorExcluded(s.store, task.did) then Finish(s, id)
    else SetPhase(s, id, AwaitingLock(limit))
  }

  /** Media is reserved under the budget lock, after it was fetched and before it is processed. */
  function ReserveMedia(s: State, cfg: Config, id: TaskId, offered: nat): State
    requires id in s.jobs
  {
    var allowed := if cfg.mediaBudget > s.mediaCount then cfg.mediaBudget - s.mediaCount else 0;
    var taken := Min(offered, allowed);
    var t := s.(mediaCount := s.mediaCount + taken);
    if s.jobs[id].Fetching? then SetPhase(t, id, Processing(taken))
    else SetPhase(t, id, if taken > 0 then DeepProcessing(taken) else Scoring)
  }

  function TakeLock(s: State, cfg: Config, id: TaskId): State
    requires id in s.jobs && id in s.store.tasks && s.jobs[id].AwaitingLock?
  {
    var did := TaskOf(s, id).did;
    var existing := ChildDids(s.store, did);
    if |existing| >= cfg.fanoutLimit then Finish(s, id)
    else SetPhase(s.(locks := s.locks[did := id]), id,
                  Expanding(Min(s.jobs[id].limit, cfg.fanoutLimit - |existing|), existing))
  }

  function Apply(s: State, cfg: Config, step: Step): State
    requires Enabled(s, cfg, step)
  {
    match step
    case IngestInitial(g) => Ingest(s, cfg, g, None, None)
    case StartDraining => s.(stage := Draining)
    case ClaimBatch(ids) =>
      s.(store := Claim(s.store, ids, WORKER), jobs := StartAll(ids),
         remaining := s.remaining - |ids|, claimed := s.claimed + |ids|)
    case Begin(id) => BeginTask(s, cfg, id)
    case Reserve(id, offered) => ReserveMedia(s, cfg, id, offered)
    case Judge(id, deepen) =>
      if s.jobs[id].Processing? && deepen && cfg.deepSample > cfg.initialSample
      then SetPhase(s, id, DeepFetching)
      else SetPhase(s, id, Scoring)
    case Score(id, qualified, score, stamp) =>
      var task := TaskOf(s, id);
      if qualified then
        Finish(s.(store := EnqueueExpansion(s, cfg, task.did, task.depth, score, Some(id), stamp)), id)
      else Finish(s, id)
    case Lock(id) => TakeLock(s, cfg, id)
    case Suggest(id, g) =>
      var phase := s.jobs[id].(left := s.jobs[id].left - 1);
      SetPhase(Ingest(s, cfg, g, Some(TaskOf(s, id).did), Some(id)), id, phase)
    case SkipSuggestion(id) =>
      SetPhase(s, id, s.jobs[id].(left := s.jobs[id].left - 1))
    case EndOracle(id) =>
      var children := ChildDids(s.store, TaskOf(s, id).did);
      Finish(s.(expansionAdded := s.expansionAdded + |children - s.jobs[id].existing|), id)
    case Throw(id, overBudget) =>
      Abort(s.(requestBudgetExhausted := s.requestBudgetExhausted || overBudget), id)
    case Request(sent) => if sent then s.(requestsUsed := s.requestsUsed + 1) else s
    case Operate(exclusion, cancelled) => s.(store := Intervene(s.store, exclusion, cancelled))
    case Restart(campaign) => NewRun(s.store, campaign, cfg)
  }

  ghost predicate Legal(s: State, cfg: Config, steps: seq<Step>)
    decreases |steps|
  {
    steps == [] || (Enabled(s, cfg, steps[0]) && Legal(Apply(s, cfg, steps[0]), cfg, steps[1..]))
  }

  ghost function Run(s: State, cfg: Config, steps: seq<Step>): State
    requires Legal(s, cfg, steps)
    decreases |steps|
  {
    if steps == [] then s else Run(Apply(s, cfg, steps[0]), cfg, steps[1..])
  }

  // ----- the invariants -----

  /** Each running coroutine holds the lease of its task. */
  ghost predicate LeasesHeld(s: State) {
    forall id | id in s.jobs :: Holds(s.store, id, WORKER)
  }

  /** Each lock has one holder, the expansion of that creator. */
  ghost predicate LocksFit(jobs: map<TaskId, Phase>, locks: map<Did, TaskId>, tasks: map<TaskId, Task>) {
    && (forall did | did in locks ::
          locks[did] in jobs && jobs[locks[did]].Expanding?
          && locks[did] in tasks && tasks[locks[did]].did == did)
    && (forall id | id in jobs && jobs[id].Expanding? ::
          id in tasks && tasks[id].did in locks && locks[tasks[id].did] == id)
  }

  ghost predicate Sound(s: State) {
    Valid(s.store) && LeasesHeld(s) && LocksFit(s.jobs, s.locks, s.store.tasks)
  }

  ghost predicate WithinBudgets(s: State, cfg: Config) {
    && |s.seen| == s.uniqueCreators <= cfg.creatorBudget
    && s.mediaCount <= cfg.mediaBudget
    && (cfg.requestBudget.Some? ==> s.requestsUsed <= cfg.requestBudget.value)
    && s.claimed + s.remaining == cfg.maxTasks
    && s.claimed == s.completed + s.retried + s.dead + |s.jobs|
  }

  /** What the lock holder of a creator may still add to its children. */
  function Pledged(s: State, did: Did): nat {
    if did in s.locks && s.locks[did] in s.jobs && s.jobs[s.locks[did]].Expanding?
    then s.jobs[s.locks[did]].left else 0
  }

  ghost predicate FanoutBounded(s: State, did: Did, bound: nat) {
    |ChildDids(s.store, did)| + Pledged(s, did) <= bound
  }

  // ----- how the pieces of a step change the store -----

  lemma EnqueueExpansionKeepsValid(
    s: State, cfg: Config, did: Did, depth: nat, priority: real, parent: Option<TaskId>, stamp: Stamp)
    requires Valid(s.store)
    ensures var t := EnqueueExpansion(s, cfg, did, depth, priority, parent, stamp);
            Valid(t) && Extends(s.store, t) && t.observations == s.store.observations
  {
    var outbound := Draft(s, cfg, did, ExpandOutboundFollows, depth, priority, parent, stamp.now, stamp.outboundRank);
    var suggested :=
      Draft(s, cfg, did, ExpandSuggestedFollows, depth, priority, parent, stamp.now, stamp.suggestedRank);
    hide Valid, Enqueue;
    EnqueueExtends(s.store, outbound);
    EnqueueExtends(s.store, suggested);
    EnqueueExtends(Enqueue(s.store, outbound), suggested);
  }

  lemma EnqueueExtends(s: Store, draft: Task)
    requires Valid(s)
    ensures Valid(Enqueue(s, draft)) && Extends(s, Enqueue(s, draft))
    ensures Enqueue(s, draft).observations == s.observations
  {
    EnqueueKeepsValid(s, draft);
  }

  /** Old tasks and leases are untouched. */
  ghost predicate Extends(a: Store, b: Store) {
    && a.leases == b.leases && a.tasks.Keys <= b.tasks.Keys
    && forall id | id in a.tasks :: b.tasks[id] == a.tasks[id]
  }

  lemma ScheduleKeepsValid(t: State, cfg: Config, g: Suggestion, parent: Option<TaskId>)
    requires Valid(t.store)
    ensures var u := Schedule(t, cfg, g, parent);
            Valid(u) && Extends(t.store, u) && u.observations == t.store.observations
  {
    if CreatorExcluded(t.store, g.did) || g.blockedByLabel {
    } else if g.expandWithoutSampling && g.allowed {
      EnqueueExpansionKeepsValid(t, cfg, g.did, g.depth, g.confidence, parent, g.stamp);
    } else if g.sampling.SkipQualified? {
      EnqueueExpansionKeepsValid(t, cfg, g.did, g.depth, g.sampling.score, parent, g.stamp);
    } else if g.sampling.ShouldSample? {
      EnqueueExtends(t.store, Draft(t, cfg, g.did, SampleCreatorMedia, g.depth, g.confidence,
                                    parent, g.stamp.now, g.stamp.outboundRank));
    }
  }

  lemma IngestKeepsValid(s: State, cfg: Config, g: Suggestion, parentDid: Option<Did>, parent: Option<TaskId>)
    requires Valid(s.store)
    ensures var t := Ingest(s, cfg, g, parentDid, parent);
            Valid(t.store) && Extends(s.store, t.store) && t.jobs == s.jobs && t.locks == s.locks
  {
    ScheduleKeepsValid(Note(s, g, parentDid, parent), cfg, g, parent);
  }

  lemma ExtensionKeepsSound(s: State, t: State)
    requires Sound(s) && Valid(t.store) && Extends(s.store, t.store) && t.locks == s.locks
    requires t.jobs.Keys == s.jobs.Keys
    requires forall id | id in s.jobs :: t.jobs[id].Expanding? == s.jobs[id].Expanding?
    ensures Sound(t)
  {
  }

  lemma EndKeepsLocks(s: State, id: TaskId, tasks: map<TaskId, Task>)
    requires LocksFit(s.jobs, s.locks, s.store.tasks)
    requires tasks.Keys == s.store.tasks.Keys
    requires forall i | i in tasks :: tasks[i].did == s.store.tasks[i].did
    ensures LocksFit(s.jobs - {id}, Unlock(s, id), tasks)
  {
  }

  lemma FinishKeepsSound(s: State, id: TaskId)
    requires Sound(s) && id in s.jobs
    ensures Sound(Finish(s, id))
  {
    ReleaseKeepsValid(s.store, id, Completed);
    EndKeepsLocks(s, id, Release(s.store, id, Completed).tasks);
    hide Valid, LocksFit;
  }

  lemma AbortKeepsSound(s: State, id: TaskId)
    requires Sound(s) && id in s.jobs
    ensures Sound(Abort(s, id))
  {
    var status := FailStatus(TaskOf(s, id));
    ReleaseKeepsValid(s.store, id, status);
    EndKeepsLocks(s, id, Release(s.store, id, status).tasks);
    hide Valid, LocksFit;
  }

  /** Ending a coroutine, well or badly, ends exactly its own lease and lock. */
  lemma EndKeepsSound(s: State, id: TaskId)
    requires Sound(s) && id in s.jobs
    ensures Sound(Finish(s, id)) && Sound(Abort(s, id))
  {
    FinishKeepsSound(s, id);
    AbortKeepsSound(s, id);
  }

  /** Where a freshly begun task can end up. */
  lemma BeginOutcomes(s: State, cfg: Config, id: TaskId)
    requires id in s.store.tasks
    ensures BeginTask(s, cfg, id) in
      {Finish(s, id), Abort(s, id), SetPhase(s, id, Fetching),
       SetPhase(s, id, AwaitingLock(cfg.outboundLimit)), SetPhase(s, id, AwaitingLock(cfg.suggestedLimit))}
  {
  }

  lemma PhaseKeepsSound(s: State, id: TaskId, phase: Phase)
    requires Sound(s) && id in s.jobs && s.jobs[id].Expanding? == phase.Expanding?
    ensures Sound(SetPhase(s, id, phase))
  {
    ExtensionKeepsSound(s, SetPhase(s, id, phase));
  }

  lemma ClaimKeepsSound(s: State, cfg: Config, step: Step)
    requires Sound(s) && Enabled(s, cfg, step) && step.ClaimBatch?
    ensures Sound(Apply(s, cfg, step))
  {
    ClaimKeepsValid(s.store, step.ids, WORKER);
    ClaimedTasks(s.store, step.ids, WORKER);
    assert s.locks == map[];
  }

  lemma BeginKeepsSound(s: State, cfg: Config, step: Step)
    requires Sound(s) && Enabled(s, cfg, step) && step.Begin?
    ensures Sound(Apply(s, cfg, step))
  {
    BeginOutcomes(s, cfg, step.id);
    EndKeepsSound(s, step.id);
    PhaseKeepsSound(s, step.id, Fetching);
    PhaseKeepsSound(s, step.id, AwaitingLock(cfg.outboundLimit));
    PhaseKeepsSound(s, step.id, AwaitingLock(cfg.suggestedLimit));
  }

  lemma ScoreKeepsSound(s: State, cfg: Config, step: Step)
    requires Sound(s) && Enabled(s, cfg, step) && step.Score?
    ensures Sound(Apply(s, cfg, step))
  {
    var id := step.id;
    EndKeepsSound(s, id);
    if step.qualified {
      var task := TaskOf(s, id);
      EnqueueExpansionKeepsValid(s, cfg, task.did, task.depth, step.score, Some(id), step.stamp);
      var t := s.(store := EnqueueExpansion(s, cfg, task.did, task.depth, step.score, Some(id), step.stamp));
      ExtensionKeepsSound(s, t);
      EndKeepsSound(t, id);
    }
  }

  lemma LockKeepsSound(s: State, cfg: Config, step: Step)
    requires Sound(s) && Enabled(s, cfg, step) && step.Lock?
    ensures Sound(Apply(s, cfg, step))
  {
    hide Valid, Finish;
    EndKeepsSound(s, step.id);
  }

  lemma IngestKeepsSound(s: State, cfg: Config, g: Suggestion, parentDid: Option<Did>, parent: Option<TaskId>)
    requires Sound(s)
    ensures Sound(Ingest(s, cfg, g, parentDid, parent))
  {
    IngestKeepsValid(s, cfg, g, parentDid, parent);
    ExtensionKeepsSound(s, Ingest(s, cfg, g, parentDid, parent));
  }

  lemma SuggestKeepsSound(s: State, cfg: Config, step: Step)
    requires Sound(s) && Enabled(s, cfg, step) && step.Suggest?
    ensures Sound(Apply(s, cfg, step))
  {
    var id := step.id;
    var parent := Some(TaskOf(s, id).did);
    IngestKeepsSound(s, cfg, step.suggestion, parent, Some(id));
    IngestKeepsValid(s, cfg, step.suggestion, parent, Some(id));
    PhaseKeepsSound(Ingest(s, cfg, step.suggestion, parent, Some(id)), id, s.jobs[id].(left := s.jobs[id].left - 1));
  }

  lemma EndStepsKeepSound(s: State, cfg: Config, step: Step)
    requires Sound(s) && Enabled(s, cfg, step) && (step.EndOracle? || step.Throw?)
    ensures Sound(Apply(s, cfg, step))
  {
    EndKeepsSound(s, step.id);
  }

  lemma PhaseStepsKeepSound(s: State, cfg: Config, step: Step)
    requires Sound(s) && Enabled(s, cfg, step) && (step.Reserve? || step.Judge? || step.SkipSuggestion?)
    ensures Sound(Apply(s, cfg, step))
  {
    hide Valid, LeasesHeld, LocksFit;
    var t := Apply(s, cfg, step);
    assert t.store == s.store && t.locks == s.locks;
    assert t.jobs == s.jobs[step.id := t.jobs[step.id]];
    assert t.jobs[step.id].Expanding? == s.jobs[step.id].Expanding?;
    ExtensionKeepsSound(s, t);
  }

  /** Cancelling waiting tasks does not touch the running ones. */
  lemma InterveneKeepsValid(s: Store, exclusion: Exclusion, cancelled: set<TaskId>)
    requires Valid(s) && AllWaiting(s, cancelled)
    ensures Valid(Intervene(s, exclusion, cancelled))
  {
    SameFaces(s, Intervene(s, exclusion, cancelled));
  }

  lemma OperateKeepsSound(s: State, cfg: Config, step: Step)
    requires Sound(s) && Enabled(s, cfg, step) && step.Operate?
    ensures Sound(Apply(s, cfg, step))
  {
    InterveneKeepsValid(s.store, step.exclusion, step.cancelled);
    hide Valid;
  }

  lemma StepKeepsSound(s: State, cfg: Config, step: Step)
    requires Sound(s) && Enabled(s, cfg, step)
    ensures Sound(Apply(s, cfg, step))
  {
    match step
    case IngestInitial(g) => IngestKeepsSound(s, cfg, g, None, None);
    case ClaimBatch(_) => ClaimKeepsSound(s, cfg, step);
    case Begin(_) => BeginKeepsSound(s, cfg, step);
    case Score(_, _, _, _) => ScoreKeepsSound(s, cfg, step);
    case Lock(_) => LockKeepsSound(s, cfg, step);
    case Suggest(_, _) => SuggestKeepsSound(s, cfg, step);
    case EndOracle(_) => EndStepsKeepSound(s, cfg, step);
    case Throw(_, _) => EndStepsKeepSound(s, cfg, step);
    case Reserve(_, _) => PhaseStepsKeepSound(s, cfg, step);
    case Judge(_, _) => PhaseStepsKeepSound(s, cfg, step);
    case SkipSuggestion(_) => PhaseStepsKeepSound(s, cfg, step);
    case Operate(_, _) => OperateKeepsSound(s, cfg, step);
    case StartDraining =>
    case Request(_) =>
    case Restart(_) =>
  }

  // ----- budgets and conservation -----

  lemma EndKeepsBudgets(s: State, cfg: Config, id: TaskId)
    requires WithinBudgets(s, cfg) && id in s.jobs && id in s.store.tasks
    ensures WithinBudgets(Finish(s, id), cfg) && WithinBudgets(Abort(s, id), cfg)
  {
    assert (s.jobs - {id}).Keys == s.jobs.Keys - {id};
  }

  lemma SamePhaseCount(jobs: map<TaskId, Phase>, id: TaskId, phase: Phase)
    requires id in jobs
    ensures |jobs[id := phase]| == |jobs|
  {
    assert jobs[id := phase].Keys == jobs.Keys;
  }

  lemma ClaimKeepsBudgets(s: State, cfg: Config, step: Step)
    requires WithinBudgets(s, cfg) && Enabled(s, cfg, step) && step.ClaimBatch?
    ensures WithinBudgets(Apply(s, cfg, step), cfg)
  {
    StartedCount(step.ids);
    assert |s.jobs| == 0;
  }

  lemma StartedCount(ids: set<TaskId>)
    ensures |StartAll(ids)| == |ids|
  {
    assert StartAll(ids).Keys == ids;
  }

  lemma IngestKeepsBudgets(s: State, cfg: Config, g: Suggestion, parentDid: Option<Did>, parent: Option<TaskId>)
    requires WithinBudgets(s, cfg)
    ensures WithinBudgets(Ingest(s, cfg, g, parentDid, parent), cfg)
  {
    assert g.did in s.seen ==> s.seen + {g.did} == s.seen;
  }

  lemma BeginKeepsBudgets(s: State, cfg: Config, step: Step)
    requires WithinBudgets(s, cfg) && Enabled(s, cfg, step) && step.Begin?
    ensures WithinBudgets(Apply(s, cfg, step), cfg)
  {
    BeginOutcomes(s, cfg, step.id);
    EndKeepsBudgets(s, cfg, step.id);
    SamePhaseCount(s.jobs, step.id, Fetching);
    SamePhaseCount(s.jobs, step.id, AwaitingLock(cfg.outboundLimit));
    SamePhaseCount(s.jobs, step.id, AwaitingLock(cfg.suggestedLimit));
  }

  lemma LockKeepsBudgets(s: State, cfg: Config, step: Step)
    requires WithinBudgets(s, cfg) && Enabled(s, cfg, step) && step.Lock?
    ensures WithinBudgets(Apply(s, cfg, step), cfg)
  {
    EndKeepsBudgets(s, cfg, step.id);
    var t := Apply(s, cfg, step);
    if step.id in t.jobs {
      SamePhaseCount(s.jobs, step.id, t.jobs[step.id]);
    }
  }

  lemma PhaseStepsKeepBudgets(s: State, cfg: Config, step: Step)
    requires WithinBudgets(s, cfg) && Enabled(s, cfg, step)
    requires
      || step.Reserve? || step.Judge? || step.SkipSuggestion?
      || step.StartDraining? || step.Request? || step.Operate? || step.Restart?
    ensures WithinBudgets(Apply(s, cfg, step), cfg)
  {
    if step.Reserve? || step.Judge? || step.SkipSuggestion? {
      SamePhaseCount(s.jobs, step.id, Apply(s, cfg, step).jobs[step.id]);
    }
  }

  lemma StepKeepsBudgets(s: State, cfg: Config, step: Step)
    requires WithinBudgets(s, cfg) && Enabled(s, cfg, step)
    requires forall id | id in s.jobs :: id in s.store.tasks
    ensures WithinBudgets(Apply(s, cfg, step), cfg)
  {
    var t := Apply(s, cfg, step);
    match step
    case IngestInitial(g) => IngestKeepsBudgets(s, cfg, g, None, None);
    case ClaimBatch(_) => ClaimKeepsBudgets(s, cfg, step);
    case Begin(_) => BeginKeepsBudgets(s, cfg, step);
    case Score(id, _, _, _) => EndKeepsBudgets(s, cfg, id);
    case Lock(_) => LockKeepsBudgets(s, cfg, step);
    case Suggest(id, g) =>
      IngestKeepsBudgets(s, cfg, g, Some(TaskOf(s, id).did), Some(id));
      SamePhaseCount(s.jobs, id, t.jobs[id]);
    case EndOracle(id) => EndKeepsBudgets(s, cfg, id);
    case Throw(id, _) => EndKeepsBudgets(s, cfg, id);
    case _ => PhaseStepsKeepBudgets(s, cfg, step);
  }

  // ----- the fan-out bound -----

  /** Recording a suggestion gives one creator at most one new child, and no other creator any. */
  lemma ChildrenAfterRecord(s: Store, o: Observation, did: Did)
    ensures ChildDids(s, did) <= ChildDids(Record(s, o), did) <= ChildDids(s, did) + {o.did}
    ensures !(o.parent == Some(did) && o.expansionEdge) ==> ChildDids(Record(s, o), did) == ChildDids(s, did)
    ensures |ChildDids(Record(s, o), did)| <= |ChildDids(s, did)| + 1
  {
    var a, b := ChildDids(s, did), ChildDids(Record(s, o), did);
    assert b <= a + {o.did};
    assert a <= b;
    CardinalityMonotone(b, a + {o.did});
  }

  lemma IngestChildren(s: State, cfg: Config, g: Suggestion, parentDid: Option<Did>, parent: Option<TaskId>, did: Did)
    requires Valid(s.store)
    ensures |ChildDids(Ingest(s, cfg, g, parentDid, parent).store, did)|
         <= |ChildDids(s.store, did)| + if parentDid == Some(did) then 1 else 0
    ensures ChildDids(s.store, did) <= ChildDids(Ingest(s, cfg, g, parentDid, parent).store, did)
  {
    ChildrenAfterRecord(s.store, Observation(CampaignOf(s, parent), g.did, g.source, parentDid, parentDid.Some?), did);
    ScheduleKeepsValid(Note(s, g, parentDid, parent), cfg, g, parent);
  }

  /** Steps that record nothing leave every creator's children alone. */
  lemma OtherStepsKeepChildren(s: State, cfg: Config, step: Step)
    requires Sound(s) && Enabled(s, cfg, step) && !step.IngestInitial? && !step.Suggest?
    ensures Apply(s, cfg, step).store.observations == s.store.observations
  {
    if step.Score? {
      var task := TaskOf(s, step.id);
      EnqueueExpansionKeepsValid(s, cfg, task.did, task.depth, step.score, Some(step.id), step.stamp);
    } else if step.Begin? {
      BeginOutcomes(s, cfg, step.id);
    }
  }

  lemma PledgeAfter(s: State, cfg: Config, step: Step, did: Did)
    requires Sound(s) && Enabled(s, cfg, step) && !step.Lock? && !step.Suggest?
    ensures Pledged(Apply(s, cfg, step), did) <= Pledged(s, did)
  {
    hide Valid, Schedule, EnqueueExpansion, Complete, Fail, FailStatus;
    if step.Begin? {
      BeginOutcomes(s, cfg, step.id);
    } else if step.ClaimBatch? {
      assert s.locks == map[];
    }
  }

  lemma LockKeepsFanout(s: State, cfg: Config, step: Step, did: Did, bound: nat)
    requires Sound(s) && FanoutBounded(s, did, bound) && cfg.fanoutLimit <= bound
    requires Enabled(s, cfg, step) && step.Lock?
    ensures FanoutBounded(Apply(s, cfg, step), did, bound)
  {
    OtherStepsKeepChildren(s, cfg, step);
    assert ChildDids(Apply(s, cfg, step).store, did) == ChildDids(s.store, did);
  }

  lemma SuggestKeepsFanout(s: State, cfg: Config, step: Step, did: Did, bound: nat)
    requires Sound(s) && FanoutBounded(s, did, bound) && Enabled(s, cfg, step) && step.Suggest?
    ensures FanoutBounded(Apply(s, cfg, step), did, bound)
  {
    var parent := TaskOf(s, step.id).did;
    IngestKeepsValid(s, cfg, step.suggestion, Some(parent), Some(step.id));
    IngestChildren(s, cfg, step.suggestion, Some(parent), Some(step.id), did);
    assert did == parent ==> s.locks[did] == step.id;
  }

  /** Of each creator apart: whatever bound it is under, the limit or more, is kept. */
  lemma StepKeepsFanout(s: State, cfg: Config, step: Step, did: Did, bound: nat)
    requires Sound(s) && FanoutBounded(s, did, bound) && cfg.fanoutLimit <= bound && Enabled(s, cfg, step)
    ensures FanoutBounded(Apply(s, cfg, step), did, bound)
  {
    if step.Lock? {
      LockKeepsFanout(s, cfg, step, did, bound);
    } else if step.Suggest? {
      SuggestKeepsFanout(s, cfg, step, did, bound);
    } else {
      PledgeAfter(s, cfg, step, did);
      if step.IngestInitial? {
        IngestChildren(s, cfg, step.suggestion, None, None, did);
      } else {
        OtherStepsKeepChildren(s, cfg, step);
        assert ChildDids(Apply(s, cfg, step).store, did) == ChildDids(s.store, did);
      }
    }
  }

  /** No child is ever forgotten. */
  lemma StepKeepsChildren(s: State, cfg: Config, step: Step, did: Did)
    requires Sound(s) && Enabled(s, cfg, step)
    ensures ChildDids(s.store, did) <= ChildDids(Apply(s, cfg, step).store, did)
  {
    if step.IngestInitial? {
      IngestChildren(s, cfg, step.suggestion, None, None, did);
    } else if step.Suggest? {
      IngestChildren(s, cfg, step.suggestion, Some(TaskOf(s, step.id).did), Some(step.id), did);
    } else {
      OtherStepsKeepChildren(s, cfg, step);
    }
  }

  // ----- the main results -----

  lemma {:induction false} RunKeepsInvariants(s: State, cfg: Config, steps: seq<Step>)
    requires Sound(s) && WithinBudgets(s, cfg) && Legal(s, cfg, steps)
    ensures Sound(Run(s, cfg, steps)) && WithinBudgets(Run(s, cfg, steps), cfg)
    decreases |steps|
  {
    if steps != [] {
      StepKeepsSound(s, cfg, steps[0]);
      StepKeepsBudgets(s, cfg, steps[0]);
      RunKeepsInvariants(Apply(s, cfg, steps[0]), cfg, steps[1..]);
    }
  }

  lemma {:induction false} RunKeepsFanout(s: State, cfg: Config, steps: seq<Step>, did: Did, bound: nat)
    requires Sound(s) && FanoutBounded(s, did, bound) && cfg.fanoutLimit <= bound && Legal(s, cfg, steps)
    ensures FanoutBounded(Run(s, cfg, steps), did, bound)
    ensures ChildDids(s.store, did) <= ChildDids(Run(s, cfg, steps).store, did)
    decreases |steps|
  {
    if steps != [] {
      StepKeepsSound(s, cfg, steps[0]);
      StepKeepsFanout(s, cfg, steps[0], did, bound);
      StepKeepsChildren(s, cfg, steps[0], did);
      RunKeepsFanout(Apply(s, cfg, steps[0]), cfg, steps[1..], did, bound);
    }
  }

  /** A run may start on the store that earlier campaigns left, under whatever limits they ran. */
  lemma NewRunIsSound(store: Store, campaign: CampaignId, cfg: Config)
    requires Valid(store)
    ensures Sound(NewRun(store, campaign, cfg)) && WithinBudgets(NewRun(store, campaign, cfg), cfg)
  {
  }

  /**
   In every reachable state, whatever interleaving, errors and restarts led to it: creators,
   media, requests and claims stay within their budgets, and every claimed task is running,
   completed, retried or dead, so after each batch claimed = completed + retried + dead.
   */
  lemma BudgetsHold(store: Store, campaign: CampaignId, cfg: Config, steps: seq<Step>)
    requires Valid(store) && Legal(NewRun(store, campaign, cfg), cfg, steps)
    ensures var t := Run(NewRun(store, campaign, cfg), cfg, steps);
            && |t.seen| == t.uniqueCreators <= cfg.creatorBudget
            && t.mediaCount <= cfg.mediaBudget
            && (cfg.requestBudget.Some? ==> t.requestsUsed <= cfg.requestBudget.value)
            && t.claimed <= cfg.maxTasks
            && (t.jobs == map[] ==> t.claimed == t.completed + t.retried + t.dead)
  {
    NewRunIsSound(store, campaign, cfg);
    RunKeepsInvariants(NewRun(store, campaign, cfg), cfg, steps);
  }

  /**
   Two expansions of one creator may run at once, yet its children never exceed the limit; a
   creator that an earlier campaign left at or over the limit gains no child at all.
   */
  lemma FanoutHolds(store: Store, campaign: CampaignId, cfg: Config, steps: seq<Step>, did: Did)
    requires Valid(store) && Legal(NewRun(store, campaign, cfg), cfg, steps)
    ensures var before := ChildDids(store, did);
            var after := ChildDids(Run(NewRun(store, campaign, cfg), cfg, steps).store, did);
            && (|before| <= cfg.fanoutLimit ==> |after| <= cfg.fanoutLimit)
            && (|before| >= cfg.fanoutLimit ==> after == before)
  {
    var s, before := NewRun(store, campaign, cfg), ChildDids(store, did);
    NewRunIsSound(store, campaign, cfg);
    RunKeepsFanout(s, cfg, steps, did, if |before| <= cfg.fanoutLimit then cfg.fanoutLimit else |before|);
    hide Run, ChildDids;
    var after := ChildDids(Run(s, cfg, steps).store, did);
    if |before| >= cfg.fanoutLimit {
      SameSize(before, after);
    }
  }

  lemma SameSize<T>(a: set<T>, b: set<T>)
    requires a <= b && |b| <= |a|
    ensures a == b
  {
    assert b == a + (b - a);
  }

  // ----- the exclusion barrier -----

  /** The tasks of a creator that have got past their exclusion check. */
  function Working(s: State, did: Did): set<TaskId> {
    set id | id in s.jobs && id in s.store.tasks && s.store.tasks[id].did == did && !s.jobs[id].Started?
  }

  function TasksOf(store: Store, did: Did): set<TaskId> {
    set id | id in store.tasks && store.tasks[id].did == did
  }

  /** `b` may hold more exclusions than `a`, but no new task for `did`. */
  ghost predicate Shields(a: Store, b: Store, did: Did) {
    && a.exclusions <= b.exclusions
    && TasksOf(b, did) == TasksOf(a, did)
  }

  lemma EnqueueShields(s: Store, draft: Task, did: Did)
    requires Valid(s) && did != "" && CreatorExcluded(s, did)
    ensures Shields(s, Enqueue(s, draft), did)
  {
  }

  lemma EnqueueExpansionShields(
    s: State, cfg: Config, did: Did, depth: nat, priority: real, parent: Option<TaskId>, stamp: Stamp, shielded: Did)
    requires Valid(s.store) && shielded != "" && CreatorExcluded(s.store, shielded)
    ensures Shields(s.store, EnqueueExpansion(s, cfg, did, depth, priority, parent, stamp), shielded)
  {
    var outbound := Draft(s, cfg, did, ExpandOutboundFollows, depth, priority, parent, stamp.now, stamp.outboundRank);
    var suggested :=
      Draft(s, cfg, did, ExpandSuggestedFollows, depth, priority, parent, stamp.now, stamp.suggestedRank);
    EnqueueShields(s.store, outbound, shielded);
    EnqueueShields(s.store, suggested, shielded);
    EnqueueKeepsValid(s.store, outbound);
    EnqueueShields(Enqueue(s.store, outbound), suggested, shielded);
  }

  lemma ScheduleShields(t: State, cfg: Config, g: Suggestion, parent: Option<TaskId>, did: Did)
    requires Valid(t.store) && did != "" && CreatorExcluded(t.store, did)
    ensures Shields(t.store, Schedule(t, cfg, g, parent), did)
  {
    hide Valid, EnqueueExpansion, Enqueue;
    if CreatorExcluded(t.store, g.did) || g.blockedByLabel {
    } else if g.expandWithoutSampling && g.allowed {
      EnqueueExpansionShields(t, cfg, g.did, g.depth, g.confidence, parent, g.stamp, did);
    } else if g.sampling.SkipQualified? {
      EnqueueExpansionShields(t, cfg, g.did, g.depth, g.sampling.score, parent, g.stamp, did);
    } else if g.sampling.ShouldSample? {
      EnqueueShields(t.store, Draft(t, cfg, g.did, SampleCreatorMedia, g.depth, g.confidence,
                                    parent, g.stamp.now, g.stamp.outboundRank), did);
    }
  }

  lemma IngestShields(s: State, cfg: Config, g: Suggestion, parentDid: Option<Did>, parent: Option<TaskId>, did: Did)
    requires Valid(s.store) && did != "" && CreatorExcluded(s.store, did)
    ensures Shields(s.store, Ingest(s, cfg, g, parentDid, parent).store, did)
  {
    var t := Note(s, g, parentDid, parent);
    assert Valid(t.store);
    hide Valid, Schedule;
    ScheduleShields(t, cfg, g, parent, did);
  }

  lemma EndShields(s: State, id: TaskId, did: Did)
    requires Sound(s) && id in s.jobs
    ensures Shields(s.store, Finish(s, id).store, did) && Shields(s.store, Abort(s, id).store, did)
  {
  }

  /** One step: the store stays shielded, and no task of the creator gets past its check. */
  lemma StepShields(s: State, cfg: Config, step: Step, did: Did)
    requires Sound(s) && Enabled(s, cfg, step) && did != "" && CreatorExcluded(s.store, did)
    ensures Shields(s.store, Apply(s, cfg, step).store, did)
  {
    hide Valid, Schedule, EnqueueExpansion, Complete, Fail, FailStatus, ChildDids, Record, Unlock;
    match step
    case IngestInitial(g) => IngestShields(s, cfg, g, None, None, did);
    case Suggest(id, g) => IngestShields(s, cfg, g, Some(TaskOf(s, id).did), Some(id), did);
    case Score(id, qualified, score, stamp) =>
      EndShields(s, id, did);
      if qualified {
        ScoreShields(s, cfg, step, did);
      }
    case Begin(id) => BeginOutcomes(s, cfg, id); EndShields(s, id, did);
    case Lock(id) => EndShields(s, id, did);
    case EndOracle(id) => EndShields(s, id, did);
    case Throw(id, _) => EndShields(s, id, did);
    case ClaimBatch(_) =>
    case Reserve(_, _) =>
    case Judge(_, _) =>
    case SkipSuggestion(_) =>
    case Operate(exclusion, cancelled) =>
      assert TasksOf(Intervene(s.store, exclusion, cancelled), did) == TasksOf(s.store, did);
    case StartDraining =>
    case Request(_) =>
    case Restart(_) =>
  }

  lemma ScoreShields(s: State, cfg: Config, step: Step, did: Did)
    requires Sound(s) && Enabled(s, cfg, step) && step.Score? && step.qualified
    requires did != "" && CreatorExcluded(s.store, did)
    ensures Shields(s.store, Apply(s, cfg, step).store, did)
  {
    var task := TaskOf(s, step.id);
    EnqueueExpansionShields(s, cfg, task.did, task.depth, step.score, Some(step.id), step.stamp, did);
    EnqueueExpansionKeepsValid(s, cfg, task.did, task.depth, step.score, Some(step.id), step.stamp);
    var t := s.(store := EnqueueExpansion(s, cfg, task.did, task.depth, step.score, Some(step.id), step.stamp));
    ExtensionKeepsSound(s, t);
    EndShields(t, step.id, did);
  }

  /** Only `Begin` takes a coroutine past its start. */
  lemma OnlyBeginStarts(s: State, cfg: Config, step: Step, id: TaskId)
    requires Enabled(s, cfg, step) && !step.Begin?
    requires id in Apply(s, cfg, step).jobs && !Apply(s, cfg, step).jobs[id].Started?
    ensures id in s.jobs && !s.jobs[id].Started?
  {
    hide Schedule, EnqueueExpansion, Complete, Fail, Claim;
  }

  /** The check at the start of a task ends it when its creator is excluded. */
  lemma BeginChecks(s: State, cfg: Config, begun: TaskId, did: Did, id: TaskId)
    requires begun in s.store.tasks && id in s.store.tasks && s.store.tasks[id].did == did
    requires did != "" && CreatorExcluded(s.store, did)
    requires id in BeginTask(s, cfg, begun).jobs && !BeginTask(s, cfg, begun).jobs[id].Started?
    ensures id in s.jobs && !s.jobs[id].Started?
  {
    hide Complete, Fail, FailStatus, CreatorExcluded, Unlock;
  }

  lemma StepStartsNoWork(s: State, cfg: Config, step: Step, did: Did)
    requires Sound(s) && Enabled(s, cfg, step) && did != "" && CreatorExcluded(s.store, did)
    ensures Working(Apply(s, cfg, step), did) <= Working(s, did)
  {
    var t := Apply(s, cfg, step);
    assert step.Begin? ==> t == BeginTask(s, cfg, step.id);
    hide Sound, Apply, CreatorExcluded, BeginTask;
    StepShields(s, cfg, step, did);
    forall id | id in Working(t, did) ensures id in Working(s, did) {
      assert id in TasksOf(t.store, did);
      assert id in TasksOf(s.store, did);
      if step.Begin? {
        BeginChecks(s, cfg, step.id, did, id);
      } else {
        OnlyBeginStarts(s, cfg, step, id);
      }
    }
  }

  /**
   Once a creator is excluded, then in this run and in every later one it stays excluded, no
   task is created for it, and no task starts to sample or expand it.
   */
  lemma {:induction false} ExclusionHolds(s: State, cfg: Config, steps: seq<Step>, did: Did)
    requires Sound(s) && Legal(s, cfg, steps) && did != "" && CreatorExcluded(s.store, did)
    ensures var t := Run(s, cfg, steps);
            && CreatorExcluded(t.store, did)
            && TasksOf(t.store, did) == TasksOf(s.store, did)
            && Working(t, did) <= Working(s, did)
    decreases |steps|
  {
    if steps != [] {
      StepKeepsSound(s, cfg, steps[0]);
      StepShields(s, cfg, steps[0], did);
      StepStartsNoWork(s, cfg, steps[0], did);
      ExclusionHolds(Apply(s, cfg, steps[0]), cfg, steps[1..], did);
    }
  }

  /** An operator's exclusion holds from that step on, whatever is running. */
  lemma OperatorIsObeyed(s: State, cfg: Config, step: Step, steps: seq<Step>, did: Did)
    requires Sound(s) && did != "" && step.Operate? && Enabled(s, cfg, step)
    requires step.exclusion in {Exclusion("creator", did, "all"), Exclusion("creator", did, "discovery")}
    requires Legal(Apply(s, cfg, step), cfg, steps)
    ensures var t := Run(Apply(s, cfg, step), cfg, steps);
            && CreatorExcluded(t.store, did)
            && TasksOf(t.store, did) == TasksOf(s.store, did)
            && Working(t, did) <= Working(s, did)
  {
    hide Valid, EnqueueExpansion, Schedule, BeginTask;
    OperateKeepsSound(s, cfg, step);
    ExclusionHolds(Apply(s, cfg, step), cfg, steps, did);
    assert TasksOf(Apply(s, cfg, step).store, did) == TasksOf(s.store, did);
  }

  // ----- claiming a batch -----

  lemma WaitingIsUnclaimed(s: Store, a: set<TaskId>, b: set<TaskId>)
    requires a <= s.tasks.Keys && AllWaiting(Claim(s, a, WORKER), b)
    ensures a !! b && AllWaiting(s, b)
  {
    var t := Claim(s, a, WORKER);
    forall id | id in b ensures id !in a && id in s.tasks && IsWaiting(s.tasks[id].status) {
      assert t.tasks[id] == if id in a then Lease(s.tasks[id]) else s.tasks[id];
    }
  }

  lemma LeaseTwice(tasks: map<TaskId, Task>, a: set<TaskId>, b: set<TaskId>)
    requires a !! b
    ensures LeaseIn(LeaseIn(tasks, a), b) == LeaseIn(tasks, a + b)
  {
  }

  lemma HandTwice(leases: map<TaskId, Worker>, a: set<TaskId>, b: set<TaskId>)
    ensures HandTo(HandTo(leases, a, WORKER), b, WORKER) == HandTo(leases, a + b, WORKER)
  {
  }

  lemma ClaimTwice(s: Store, a: set<TaskId>, b: set<TaskId>)
    requires a <= s.tasks.Keys && b <= s.tasks.Keys && a !! b
    ensures b <= Claim(s, a, WORKER).tasks.Keys
    ensures Claim(Claim(s, a, WORKER), b, WORKER) == Claim(s, a + b, WORKER)
  {
    LeaseTwice(s.tasks, a, b);
    HandTwice(s.leases, a, b);
  }

  /** The part of a batch that explores. */
  function Share(batchSize: nat, fraction: real): (n: nat)
    requires 0.0 <= fraction <= 1.0
    ensures n <= batchSize && n as real <= batchSize as real * fraction < n as real + 1.0
  {
    assert batchSize as real * (1.0 - fraction) >= 0.0;
    (batchSize as real * fraction).Floor
  }

  lemma SelectionFacts(s: Store, ids: seq<TaskId>, limit: nat, preferHigh: bool)
    requires IsSelection(s, ids, limit, None, preferHigh)
    ensures AllWaiting(s, SetOf(ids)) && |SetOf(ids)| == |ids| <= limit
    ensures |ids| < limit ==> forall id | id in s.tasks && IsWaiting(s.tasks[id].status) :: id in SetOf(ids)
  {
    DistinctCount(ids);
    forall id | id in s.tasks && IsWaiting(s.tasks[id].status) && |ids| < limit ensures id in SetOf(ids) {
      assert IsEligible(s, None, id);
    }
  }

  lemma {:induction false} DistinctCount(ids: seq<TaskId>)
    requires Distinct(ids)
    ensures |SetOf(ids)| == |ids|
  {
    if ids != [] {
      var last := |ids| - 1;
      DistinctCount(ids[..last]);
      assert SetOf(ids) == SetOf(ids[..last]) + {ids[last]};
      assert ids[last] !in ids[..last];
    }
  }

  ghost predicate NothingWaits(s: Store) {
    forall id | id in s.tasks :: !IsWaiting(s.tasks[id].status)
  }

  lemma NothingSelected(s: Store, preferHigh: bool)
    ensures IsSelection(s, [], 0, None, preferHigh)
  {
  }

  /** The three claims of a batch: the best tasks, the least promising ones, and the best of the rest. */
  ghost predicate IsBatch(
    s: Store, batchSize: nat, exploration: nat, high: seq<TaskId>, low: seq<TaskId>, extra: seq<TaskId>)
  {
    && exploration <= batchSize && |high| + |low| <= batchSize
    && SetOf(high) <= s.tasks.Keys && SetOf(high) + SetOf(low) <= s.tasks.Keys
    && IsSelection(s, high, batchSize - exploration, None, true)
    && IsSelection(Claim(s, SetOf(high), WORKER), low, exploration, None, false)
    && IsSelection(Claim(s, SetOf(high) + SetOf(low), WORKER), extra, batchSize - |high| - |low|, None, true)
  }

  lemma BatchIs(s: Store, t: Store, u: Store, batchSize: nat, exploration: nat,
                high: seq<TaskId>, low: seq<TaskId>, extra: seq<TaskId>)
    requires exploration <= batchSize && |high| + |low| <= batchSize
    requires Claimed(s, t, SetOf(high), |high|) && Claimed(s, u, SetOf(high) + SetOf(low), |high| + |low|)
    requires IsSelection(s, high, batchSize - exploration, None, true)
    requires IsSelection(t, low, exploration, None, false)
    requires IsSelection(u, extra, batchSize - |high| - |low|, None, true)
    ensures IsBatch(s, batchSize, exploration, high, low, extra)
  {
  }

  /** From `s` to `t`, exactly the waiting tasks `ids` were claimed. */
  ghost predicate Claimed(s: Store, t: Store, ids: set<TaskId>, count: nat) {
    AllWaiting(s, ids) && ids <= s.tasks.Keys && t == Claim(s, ids, WORKER) && |ids| == count
  }

  lemma NothingClaimed(s: Store)
    ensures Claimed(s, s, {}, 0) && SetOf([]) == {}
  {
    assert Claim(s, {}, WORKER) == s;
  }

  /**
   Exploitation, then exploration, then a top-up: together one claim of distinct waiting
   tasks, never more than the batch, and short of it only when no waiting task is left.
   */
  method ClaimFrontierBatch(store: InMemoryDiscoveryStore, batchSize: nat, explorationFraction: real)
    returns (
      ghost ids: set<TaskId>, count: nat, ghost high: seq<TaskId>, ghost low: seq<TaskId>, ghost extra: seq<TaskId>)
    requires 0.0 <= explorationFraction <= 1.0
    modifies store
    ensures Claimed(old(store.View()), store.View(), ids, count) && count <= batchSize
    ensures count < batchSize ==> NothingWaits(store.View())
    ensures ids == SetOf(high) + SetOf(low) + SetOf(extra)
    ensures IsBatch(old(store.View()), batchSize, Share(batchSize, explorationFraction), high, low, extra)
  {
    var exploration := Share(batchSize, explorationFraction);
    hide Share, IsSelection, NothingWaits, Claimed, SetOf, IsBatch;
    ghost var before := store.View();
    NothingClaimed(before);
    count, high := ClaimMore(store, before, {}, 0, batchSize - exploration, true);
    ids := SetOf(high);
    assert {} + SetOf(high) == ids;
    ghost var middle := store.View();
    count, low := ClaimMore(store, before, ids, count, exploration, false);
    ids := ids + SetOf(low);
    ghost var last := store.View();
    count, extra := ClaimMore(store, before, ids, count, batchSize - count, true);
    ids := ids + SetOf(extra);
    BatchIs(before, middle, last, batchSize, exploration, high, low, extra);
  }

  /** Nothing is asked of the store when nothing is wanted. */
  method ClaimMore(
    store: InMemoryDiscoveryStore, ghost before: Store, ghost ids: set<TaskId>, count: nat,
    limit: nat, preferHigh: bool)
    returns (total: nat, ghost picked: seq<TaskId>)
    requires Claimed(before, store.View(), ids, count)
    modifies store
    ensures Claimed(before, store.View(), ids + SetOf(picked), total)
    ensures total == count + |picked| <= count + limit
    ensures total < count + limit ==> NothingWaits(store.View())
    ensures IsSelection(old(store.View()), picked, limit, None, preferHigh)
  {
    ghost var middle := store.View();
    if limit == 0 {
      NothingSelected(middle, preferHigh);
      NothingClaimed(before);
      assert ids + {} == ids;
      return count, [];
    }
    var claimed;
    claimed, picked := store.ClaimTasks(WORKER, limit, None, preferHigh);
    SelectionFacts(middle, picked, limit, preferHigh);
    MoreClaimed(before, middle, ids, count, SetOf(picked), |picked|);
    SelectedAll(middle, picked, limit, preferHigh);
    hide Claimed, IsSelection, SetOf, NothingWaits, Claim;
    total := count + |claimed|;
  }

  lemma MoreClaimed(s: Store, t: Store, ids: set<TaskId>, count: nat, more: set<TaskId>, n: nat)
    requires Claimed(s, t, ids, count) && AllWaiting(t, more) && |more| == n && more <= t.tasks.Keys
    ensures Claimed(s, Claim(t, more, WORKER), ids + more, count + n)
  {
    WaitingIsUnclaimed(s, ids, more);
    ClaimTwice(s, ids, more);
  }

  /** A selection short of its limit leaves nothing waiting. */
  lemma SelectedAll(s: Store, ids: seq<TaskId>, limit: nat, preferHigh: bool)
    requires IsSelection(s, ids, limit, None, preferHigh) && SetOf(ids) <= s.tasks.Keys
    ensures |ids| < limit ==> NothingWaits(Claim(s, SetOf(ids), WORKER))
  {
    SelectionFacts(s, ids, limit, preferHigh);
  }
}
