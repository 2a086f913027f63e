/**
 What the counters of a run mean. The media count is what was handed to the media processor, the
 requests used are the requests sent, the completed and dead counts are the growth of the tasks
 stored as such, and the depth limit and the spent media budget keep their promises over a run.
 */
module CampaignAccounts {
  import opened Wrappers
  import opened Frontier
  import opened Campaign
  import opened CampaignBounds

  // ----- media and requests -----

  /** The media that the processor has of a coroutine. */
  function MediaOf(phase: Phase): nat {
    if phase.Processing? || phase.DeepProcessing? then phase.media else 0
  }

  /** What a step hands to the processor: only a reservation does. */
  ghost function HandsOn(s: State, cfg: Config, step: Step): nat
    requires Enabled(s, cfg, step)
  {
    if step.Reserve? && step.id in Apply(s, cfg, step).jobs then MediaOf(Apply(s, cfg, step).jobs[step.id]) else 0
  }

  ghost function HandedOn(s: State, cfg: Config, steps: seq<Step>): nat
    requires Legal(s, cfg, steps)
    decreases |steps|
  {
    if steps == [] then 0 else HandsOn(s, cfg, steps[0]) + HandedOn(Apply(s, cfg, steps[0]), cfg, steps[1..])
  }

  /** The requests that went out. */
  function Sent(steps: seq<Step>): nat {
    if steps == [] then 0 else (if steps[0] == Request(true) then 1 else 0) + Sent(steps[1..])
  }

  /** A reservation hands on everything that was offered, unless the budget cuts it. */
  lemma ReservationIsFull(s: State, cfg: Config, step: Step)
    requires WithinBudgets(s, cfg) && Enabled(s, cfg, step) && step.Reserve?
    ensures HandsOn(s, cfg, step) == Min(step.offered, cfg.mediaBudget - s.mediaCount)
    ensures Apply(s, cfg, step).mediaCount == s.mediaCount + HandsOn(s, cfg, step)
  {
  }

  lemma StepCountsUse(s: State, cfg: Config, step: Step)
    requires WithinBudgets(s, cfg) && Enabled(s, cfg, step) && !step.Restart?
    ensures Apply(s, cfg, step).mediaCount == s.mediaCount + HandsOn(s, cfg, step)
    ensures Apply(s, cfg, step).requestsUsed == s.requestsUsed + if step == Request(true) then 1 else 0
  {
    hide Schedule, EnqueueExpansion, Complete, Fail, Claim, ChildDids;
    if step.Reserve? {
      ReservationIsFull(s, cfg, step);
    } else if step.Begin? {
      BeginOutcomes(s, cfg, step.id);
    }
  }

  lemma {:induction false} RunCountsUse(s: State, cfg: Config, steps: seq<Step>)
    requires Sound(s) && WithinBudgets(s, cfg) && Legal(s, cfg, steps) && NoRestart(steps)
    ensures Run(s, cfg, steps).mediaCount == s.mediaCount + HandedOn(s, cfg, steps)
    ensures Run(s, cfg, steps).requestsUsed == s.requestsUsed + Sent(steps)
    decreases |steps|
  {
    if steps != [] {
      StepKeepsSound(s, cfg, steps[0]);
      StepKeepsBudgets(s, cfg, steps[0]);
      StepCountsUse(s, cfg, steps[0]);
      hide Apply, Sound, WithinBudgets, HandsOn;
      RunCountsUse(Apply(s, cfg, steps[0]), cfg, steps[1..]);
    }
  }

  /** All media a run hands to the processor, and all requests it sends, are within their budgets. */
  lemma UseIsWithinBudgets(store: Store, campaign: CampaignId, cfg: Config, steps: seq<Step>)
    requires Valid(store) && NoRestart(steps) && Legal(NewRun(store, campaign, cfg), cfg, steps)
    ensures var s := NewRun(store, campaign, cfg);
      && HandedOn(s, cfg, steps) == Run(s, cfg, steps).mediaCount <= cfg.mediaBudget
      && Sent(steps) == Run(s, cfg, steps).requestsUsed
      && (cfg.requestBudget.Some? ==> Sent(steps) <= cfg.requestBudget.value)
  {
    NewRunIsSound(store, campaign, cfg);
    RunCountsUse(NewRun(store, campaign, cfg), cfg, steps);
    BudgetsHold(store, campaign, cfg, steps);
  }

  // ----- what a step adds to the store -----

  predicate FitsDepth(t: Task, cfg: Config) {
    t.depth <= cfg.maxDepth && (t.action != SampleCreatorMedia ==> t.depth < cfg.maxDepth)
  }

  /** Old tasks and leases are untouched; new tasks are pending and not too deep. */
  ghost predicate Grows(a: Store, b: Store, cfg: Config) {
    && Extends(a, b)
    && forall id | id in b.tasks && id !in a.tasks :: b.tasks[id].status.Pending? && FitsDepth(b.tasks[id], cfg)
  }

  lemma EnqueueGrows(s: Store, draft: Task, cfg: Config)
    requires Valid(s) && FitsDepth(draft, cfg)
    ensures Grows(s, Enqueue(s, draft), cfg)
  {
    EnqueueExtends(s, draft);
  }

  lemma GrowsTwice(a: Store, b: Store, c: Store, cfg: Config)
    requires Grows(a, b, cfg) && Grows(b, c, cfg)
    ensures Grows(a, c, cfg)
  {
  }

  lemma ExpansionGrows(
    s: State, cfg: Config, did: Did, depth: nat, priority: real, parent: Option<TaskId>, stamp: Stamp)
    requires Valid(s.store)
    ensures Grows(s.store, EnqueueExpansion(s, cfg, did, depth, priority, parent, stamp), cfg)
  {
    if depth < cfg.maxDepth {
      var outbound := Draft(
        s, cfg, did, ExpandOutboundFollows, depth, priority, parent, stamp.now, stamp.outboundRank);
      var suggested := Draft(
        s, cfg, did, ExpandSuggestedFollows, depth, priority, parent, stamp.now, stamp.suggestedRank);
      var first := Enqueue(s.store, outbound);
      EnqueueExtends(s.store, outbound);
      EnqueueGrows(s.store, outbound, cfg);
      EnqueueGrows(s.store, suggested, cfg);
      EnqueueGrows(first, suggested, cfg);
      hide Valid, Enqueue, Grows;
      GrowsTwice(s.store, first, Enqueue(first, suggested), cfg);
      NothingGrows(s.store, cfg);
    } else {
      NothingGrows(s.store, cfg);
    }
  }

  lemma NothingGrows(s: Store, cfg: Config)
    ensures Grows(s, s, cfg)
  {
  }

  lemma ScheduleGrows(t: State, cfg: Config, g: Suggestion, parent: Option<TaskId>)
    requires Valid(t.store)
    ensures Grows(t.store, Schedule(t, cfg, g, parent), cfg)
  {
    hide Valid, EnqueueExpansion, Enqueue;
    if CreatorExcluded(t.store, g.did) || g.blockedByLabel || g.depth > cfg.maxDepth {
    } else if g.expandWithoutSampling && g.allowed {
      ExpansionGrows(t, cfg, g.did, g.depth, g.confidence, parent, g.stamp);
    } else if g.sampling.SkipQualified? {
      ExpansionGrows(t, cfg, g.did, g.depth, g.sampling.score, parent, g.stamp);
    } else if g.sampling.ShouldSample? {
      EnqueueGrows(t.store, Draft(t, cfg, g.did, SampleCreatorMedia, g.depth, g.confidence,
                                  parent, g.stamp.now, g.stamp.outboundRank), cfg);
    }
  }

  lemma IngestGrows(s: State, cfg: Config, g: Suggestion, parentDid: Option<Did>, parent: Option<TaskId>)
    requires Valid(s.store)
    ensures Grows(s.store, Ingest(s, cfg, g, parentDid, parent).store, cfg)
    ensures var t := Ingest(s, cfg, g, parentDid, parent); (t.completed, t.dead) == (s.completed, s.dead)
  {
    var t := Note(s, g, parentDid, parent);
    assert Valid(t.store) && Grows(s.store, t.store, cfg);
    ScheduleGrows(t, cfg, g, parent);
    hide Valid, Schedule, Grows;
    GrowsTwice(s.store, t.store, Schedule(t, cfg, g, parent), cfg);
    NothingGrows(s.store, cfg);
  }

  // ----- outcomes and the store -----

  function TasksWith(store: Store, status: Status): set<TaskId> {
    set id | id in store.tasks && store.tasks[id].status == status
  }

  lemma GrowsKeepsOutcomes(a: Store, b: Store, cfg: Config)
    requires Grows(a, b, cfg)
    ensures CountWith(b, Completed) == CountWith(a, Completed) && CountWith(b, Dead) == CountWith(a, Dead)
  {
    assert TasksWith(b, Completed) == TasksWith(a, Completed) && TasksWith(b, Dead) == TasksWith(a, Dead);
  }

  /** The tasks ended without being counted, or counted without having ended: none, or always the same. */
  function Unaccounted(s: State): (int, int) {
    (CountWith(s.store, Completed) - s.completed, CountWith(s.store, Dead) - s.dead)
  }

  function CountWith(store: Store, status: Status): nat {
    |TasksWith(store, status)|
  }

  lemma ReleaseCounts(s: Store, id: TaskId, status: Status, counted: Status)
    requires id in s.tasks && s.tasks[id].status.Leased? && !counted.Leased?
    ensures CountWith(Release(s, id, status), counted) == CountWith(s, counted) + (if status == counted then 1 else 0)
  {
    var before, after := TasksWith(s, counted), TasksWith(Release(s, id, status), counted);
    assert id !in before;
    if status == counted {
      assert after == before + {id};
    } else {
      assert after == before;
    }
  }

  lemma ReleaseAdds(s: Store, id: TaskId, status: Status)
    requires id in s.tasks && s.tasks[id].status.Leased?
    ensures var t := Release(s, id, status);
      && CountWith(t, Completed) == CountWith(s, Completed) + (if status.Completed? then 1 else 0)
      && CountWith(t, Dead) == CountWith(s, Dead) + (if status.Dead? then 1 else 0)
  {
    ReleaseCounts(s, id, status, Completed);
    ReleaseCounts(s, id, status, Dead);
    hide CountWith, Release;
  }

  lemma FinishAccounts(s: State, id: TaskId)
    requires Valid(s.store) && Holds(s.store, id, WORKER)
    ensures Unaccounted(Finish(s, id)) == Unaccounted(s)
  {
    ReleaseAdds(s.store, id, Completed);
    hide CountWith, Valid, Unlock, Release;
  }

  lemma AbortAccounts(s: State, id: TaskId)
    requires Valid(s.store) && Holds(s.store, id, WORKER)
    ensures Unaccounted(Abort(s, id)) == Unaccounted(s)
  {
    ReleaseAdds(s.store, id, FailStatus(TaskOf(s, id)));
    hide CountWith, Valid, Unlock, Release;
  }

  lemma EndAccounts(s: State, id: TaskId)
    requires Valid(s.store) && Holds(s.store, id, WORKER)
    ensures Unaccounted(Finish(s, id)) == Unaccounted(s) && Unaccounted(Abort(s, id)) == Unaccounted(s)
  {
    FinishAccounts(s, id);
    AbortAccounts(s, id);
  }

  lemma QuietAccounts(s: State, cfg: Config, step: Step)
    requires Enabled(s, cfg, step)
    requires step.ClaimBatch? || step.Operate?
    ensures Unaccounted(Apply(s, cfg, step)) == Unaccounted(s)
  {
    var t := Apply(s, cfg, step);
    assert TasksWith(t.store, Completed) == TasksWith(s.store, Completed);
    assert TasksWith(t.store, Dead) == TasksWith(s.store, Dead);
  }

  /** The store after the expansion tasks of a qualified creator have been enqueued. */
  function Expanded(s: State, cfg: Config, step: Step): Store
    requires step.Score? && step.id in s.store.tasks
  {
    var task := TaskOf(s, step.id);
    EnqueueExpansion(s, cfg, task.did, task.depth, step.score, Some(step.id), step.stamp)
  }

  lemma ExpandedAccounts(s: State, cfg: Config, step: Step)
    requires Sound(s) && Enabled(s, cfg, step) && step.Score?
    ensures var t := Expanded(s, cfg, step);
      && Valid(t) && Holds(t, step.id, WORKER) && t.tasks.Keys >= s.store.tasks.Keys
      && CountWith(t, Completed) == CountWith(s.store, Completed) && CountWith(t, Dead) == CountWith(s.store, Dead)
  {
    var task := TaskOf(s, step.id);
    EnqueueExpansionKeepsValid(s, cfg, task.did, task.depth, step.score, Some(step.id), step.stamp);
    ExpansionGrows(s, cfg, task.did, task.depth, step.score, Some(step.id), step.stamp);
    GrowsKeepsOutcomes(s.store, Expanded(s, cfg, step), cfg);
    hide Valid, EnqueueExpansion, CountWith, LocksFit;
  }

  lemma ScoreAccounts(s: State, cfg: Config, step: Step)
    requires Sound(s) && Enabled(s, cfg, step) && step.Score? && step.qualified
    ensures Unaccounted(Apply(s, cfg, step)) == Unaccounted(s)
  {
    hide Sound, Valid, EnqueueExpansion, CountWith, Finish, Abort, Holds;
    ExpandedAccounts(s, cfg, step);
    var t := s.(store := Expanded(s, cfg, step));
    EndAccounts(t, step.id);
    assert Apply(s, cfg, step) == Finish(t, step.id);
  }

  lemma IngestAccounts(s: State, cfg: Config, g: Suggestion, parentDid: Option<Did>, parent: Option<TaskId>)
    requires Valid(s.store)
    ensures Unaccounted(Ingest(s, cfg, g, parentDid, parent)) == Unaccounted(s)
  {
    IngestGrows(s, cfg, g, parentDid, parent);
    GrowsKeepsOutcomes(s.store, Ingest(s, cfg, g, parentDid, parent).store, cfg);
    hide Valid, Ingest, CountWith, Grows;
  }

  lemma StepAccounts(s: State, cfg: Config, step: Step)
    requires Sound(s) && Enabled(s, cfg, step) && !step.Restart?
    ensures Unaccounted(Apply(s, cfg, step)) == Unaccounted(s)
  {
    hide Valid, CountWith, Schedule, EnqueueExpansion, Complete, Fail, FailStatus, Ingest;
    match step
    case IngestInitial(g) => IngestAccounts(s, cfg, g, None, None);
    case Suggest(id, g) => IngestAccounts(s, cfg, g, Some(TaskOf(s, id).did), Some(id));
    case Score(id, qualified, _, _) =>
      if qualified {
        ScoreAccounts(s, cfg, step);
      } else {
        EndAccounts(s, id);
      }
    case Begin(id) => BeginOutcomes(s, cfg, id); EndAccounts(s, id);
    case Lock(id) => EndAccounts(s, id);
    case EndOracle(id) => EndOracleAccounts(s, cfg, step);
    case Throw(id, _) => ThrowAccounts(s, cfg, step);
    case ClaimBatch(_) => QuietAccounts(s, cfg, step);
    case Operate(_, _) => QuietAccounts(s, cfg, step);
    case Reserve(_, _) =>
    case Judge(_, _) =>
    case SkipSuggestion(_) =>
    case StartDraining =>
    case Request(_) =>
  }

  lemma EndOracleAccounts(s: State, cfg: Config, step: Step)
    requires Sound(s) && Enabled(s, cfg, step) && step.EndOracle?
    ensures Unaccounted(Apply(s, cfg, step)) == Unaccounted(s)
  {
    EndAccounts(s, step.id);
    hide CountWith, Complete;
  }

  lemma ThrowAccounts(s: State, cfg: Config, step: Step)
    requires Sound(s) && Enabled(s, cfg, step) && step.Throw?
    ensures Unaccounted(Apply(s, cfg, step)) == Unaccounted(s)
  {
    EndAccounts(s, step.id);
    hide CountWith, Fail, FailStatus, Unlock;
  }

  lemma {:induction false} RunAccounts(s: State, cfg: Config, steps: seq<Step>)
    requires Sound(s) && Legal(s, cfg, steps) && NoRestart(steps)
    ensures Unaccounted(Run(s, cfg, steps)) == Unaccounted(s)
    decreases |steps|
  {
    hide Sound, Apply, Unaccounted;
    if steps != [] {
      StepKeepsSound(s, cfg, steps[0]);
      StepAccounts(s, cfg, steps[0]);
      RunAccounts(Apply(s, cfg, steps[0]), cfg, steps[1..]);
    }
  }

  /**
   The summary tells the truth: a run has completed, and buried, exactly as many tasks as became
   completed, and dead, in the store meanwhile.
   */
  lemma SummaryMatchesStore(store: Store, campaign: CampaignId, cfg: Config, steps: seq<Step>)
    requires Valid(store) && NoRestart(steps) && Legal(NewRun(store, campaign, cfg), cfg, steps)
    ensures var t := Run(NewRun(store, campaign, cfg), cfg, steps);
      && t.completed == CountWith(t.store, Completed) - CountWith(store, Completed)
      && t.dead == CountWith(t.store, Dead) - CountWith(store, Dead)
  {
    NewRunIsSound(store, campaign, cfg);
    RunAccounts(NewRun(store, campaign, cfg), cfg, steps);
  }

  // ----- the depth limit -----

  /** No task is lost or moved to another depth, and every new one fits the limit. */
  ghost predicate Deepens(a: Store, b: Store, cfg: Config) {
    && (forall id | id in a.tasks ::
          id in b.tasks && b.tasks[id].depth == a.tasks[id].depth && b.tasks[id].action == a.tasks[id].action)
    && (forall id | id in b.tasks && id !in a.tasks :: FitsDepth(b.tasks[id], cfg))
  }

  lemma DeepensTwice(a: Store, b: Store, c: Store, cfg: Config)
    requires Deepens(a, b, cfg) && Deepens(b, c, cfg)
    ensures Deepens(a, c, cfg)
  {
  }

  lemma EndDeepens(s: State, id: TaskId, cfg: Config)
    requires id in s.store.tasks
    ensures Deepens(s.store, Finish(s, id).store, cfg) && Deepens(s.store, Abort(s, id).store, cfg)
  {
  }

  lemma ScoreDeepens(s: State, cfg: Config, step: Step)
    requires Sound(s) && Enabled(s, cfg, step) && step.Score? && step.qualified
    ensures Deepens(s.store, Apply(s, cfg, step).store, cfg)
  {
    var task := TaskOf(s, step.id);
    var t := s.(store := EnqueueExpansion(s, cfg, task.did, task.depth, step.score, Some(step.id), step.stamp));
    ExpansionGrows(s, cfg, task.did, task.depth, step.score, Some(step.id), step.stamp);
    EndDeepens(t, step.id, cfg);
    hide Valid, EnqueueExpansion, Complete;
    DeepensTwice(s.store, t.store, Finish(t, step.id).store, cfg);
  }

  lemma QuietDeepens(s: State, cfg: Config, step: Step)
    requires Enabled(s, cfg, step) && (step.ClaimBatch? || step.Operate?)
    ensures Deepens(s.store, Apply(s, cfg, step).store, cfg)
  {
  }

  lemma StepDeepens(s: State, cfg: Config, step: Step)
    requires Sound(s) && Enabled(s, cfg, step)
    ensures Deepens(s.store, Apply(s, cfg, step).store, cfg)
  {
    hide Valid, Schedule, EnqueueExpansion, Complete, Fail, FailStatus, Ingest, FitsDepth, Unlock, Claim, Intervene;
    match step
    case IngestInitial(g) => IngestGrows(s, cfg, g, None, None);
    case Suggest(id, g) => IngestGrows(s, cfg, g, Some(TaskOf(s, id).did), Some(id));
    case Score(id, qualified, _, _) =>
      EndDeepens(s, id, cfg);
      if qualified {
        ScoreDeepens(s, cfg, step);
      }
    case Begin(id) => BeginOutcomes(s, cfg, id); EndDeepens(s, id, cfg);
    case Lock(id) => EndDeepens(s, id, cfg);
    case EndOracle(id) => EndDeepens(s, id, cfg);
    case Throw(id, _) => EndDeepens(s, id, cfg);
    case ClaimBatch(_) => QuietDeepens(s, cfg, step);
    case Operate(_, _) => QuietDeepens(s, cfg, step);
    case _ =>
  }

  /** Whatever tasks earlier runs left, no run enqueues a task beyond the depth limit, or an expansion at it. */
  lemma {:induction false} DepthHolds(s: State, cfg: Config, steps: seq<Step>)
    requires Sound(s) && Legal(s, cfg, steps)
    ensures Deepens(s.store, Run(s, cfg, steps).store, cfg)
    decreases |steps|
  {
    hide Sound, Apply;
    if steps != [] {
      StepKeepsSound(s, cfg, steps[0]);
      StepDeepens(s, cfg, steps[0]);
      DepthHolds(Apply(s, cfg, steps[0]), cfg, steps[1..]);
      hide Deepens;
      DeepensTwice(s.store, Apply(s, cfg, steps[0]).store, Run(s, cfg, steps).store, cfg);
    }
  }

  // ----- the spent media budget -----

  predicate IsSampling(phase: Phase) {
    phase.Fetching? || phase.Processing? || phase.DeepFetching? || phase.DeepProcessing? || phase.Scoring?
  }

  function Samplers(s: State): set<TaskId> {
    set id | id in s.jobs && IsSampling(s.jobs[id])
  }

  lemma StepStartsNoSampler(s: State, cfg: Config, step: Step, id: TaskId)
    requires Sound(s) && Enabled(s, cfg, step) && !step.Restart? && s.mediaCount >= cfg.mediaBudget
    requires id in Apply(s, cfg, step).jobs && IsSampling(Apply(s, cfg, step).jobs[id])
    ensures id in s.jobs && IsSampling(s.jobs[id])
  {
    hide Valid, Schedule, EnqueueExpansion, Complete, Fail, FailStatus, ChildDids, Claim, Unlock;
    if step.Begin? {
      BeginRespectsBudget(s, cfg, step.id, id);
    }
  }

  lemma BeginRespectsBudget(s: State, cfg: Config, begun: TaskId, id: TaskId)
    requires begun in s.store.tasks && s.mediaCount >= cfg.mediaBudget
    requires id in BeginTask(s, cfg, begun).jobs && IsSampling(BeginTask(s, cfg, begun).jobs[id])
    ensures id in s.jobs && IsSampling(s.jobs[id])
  {
    SpentOutcomes(s, cfg, begun);
    hide BeginTask, Complete, Fail, FailStatus, Unlock;
  }

  /** Where a freshly begun task can end up when the media budget is spent. */
  lemma SpentOutcomes(s: State, cfg: Config, id: TaskId)
    requires id in s.store.tasks && s.mediaCount >= cfg.mediaBudget
    ensures BeginTask(s, cfg, id) in
      {Finish(s, id), Abort(s, id),
       SetPhase(s, id, AwaitingLock(cfg.outboundLimit)), SetPhase(s, id, AwaitingLock(cfg.suggestedLimit))}
  {
  }

  lemma MediaNeverShrinks(s: State, cfg: Config, step: Step)
    requires Enabled(s, cfg, step) && !step.Restart?
    ensures Apply(s, cfg, step).mediaCount >= s.mediaCount
  {
    hide Schedule, EnqueueExpansion, Complete, Fail, FailStatus, ChildDids, Claim;
    if step.Begin? {
      BeginOutcomes(s, cfg, step.id);
    }
  }

  /** Once the media budget is spent no further task of the run starts sampling, and nothing is handed on. */
  lemma {:induction false} SpentBudgetStopsSampling(s: State, cfg: Config, steps: seq<Step>)
    requires Sound(s) && WithinBudgets(s, cfg) && Legal(s, cfg, steps) && NoRestart(steps)
    requires s.mediaCount == cfg.mediaBudget
    ensures Samplers(Run(s, cfg, steps)) <= Samplers(s) && HandedOn(s, cfg, steps) == 0
    decreases |steps|
  {
    if steps != [] {
      var step, t := steps[0], Apply(s, cfg, steps[0]);
      StepKeepsSound(s, cfg, step);
      StepKeepsBudgets(s, cfg, step);
      StepCountsUse(s, cfg, step);
      forall id | id in Samplers(t) ensures id in Samplers(s) {
        StepStartsNoSampler(s, cfg, step, id);
      }
      MediaNeverShrinks(s, cfg, step);
      hide Sound, Apply, HandsOn;
      SpentBudgetStopsSampling(t, cfg, steps[1..]);
    }
  }

  // ----- what a suggestion leads to -----

  predicate WithinCreators(s: State, cfg: Config, did: Did) {
    did in s.seen || |s.seen| < cfg.creatorBudget
  }

  /**
   A suggested creator within the budget is seen and recorded; one that is excluded or carries a
   blocking label is excluded for good and gets no task, nor does one that is too deep or not
   worth sampling; one that is has a sampling task, or had one in this campaign.
   */
  lemma SuggestionLeadsTo(
    s: State, cfg: Config, g: Suggestion, parentDid: Option<Did>, parent: Option<TaskId>)
    ensures var t := Ingest(s, cfg, g, parentDid, parent);
      var barred := CreatorExcluded(s.store, g.did) || g.blockedByLabel;
      var sampled := !(g.expandWithoutSampling && g.allowed) && g.depth <= cfg.maxDepth;
      && (!WithinCreators(s, cfg, g.did) ==> t == s)
      && (WithinCreators(s, cfg, g.did) ==>
            && t.seen == s.seen + {g.did}
            && (exists o | o in t.store.observations :: o.did == g.did && o.parent == parentDid)
            && (barred ==> CreatorExcluded(t.store, g.did) && t.store.tasks == s.store.tasks)
            && (!barred && g.depth > cfg.maxDepth ==> t.store.tasks == s.store.tasks)
            && (!barred && sampled && g.sampling.Skip? ==> t.store.tasks == s.store.tasks)
            && (!barred && sampled && g.sampling.ShouldSample? ==>
                  HasActiveTask(t.store, EntityOf(g.did), SampleCreatorMedia)
                  || TaskKey(CampaignOf(s, parent), EntityOf(g.did), SampleCreatorMedia) in s.store.taskKeys))
  {
    if WithinCreators(s, cfg, g.did) {
      var t := Note(s, g, parentDid, parent);
      var o := Observation(CampaignOf(s, parent), g.did, g.source, parentDid, parentDid.Some?);
      assert o in t.store.observations;
      ScheduleLeadsTo(t, cfg, g, parent);
      hide Schedule, EnqueueExpansion, Enqueue;
    }
  }

  lemma ScheduleLeadsTo(t: State, cfg: Config, g: Suggestion, parent: Option<TaskId>)
    ensures var u := Schedule(t, cfg, g, parent);
      var barred := CreatorExcluded(t.store, g.did) || g.blockedByLabel;
      var sampled := !(g.expandWithoutSampling && g.allowed) && g.depth <= cfg.maxDepth;
      && u.observations == t.store.observations
      && (barred ==> CreatorExcluded(u, g.did) && u.tasks == t.store.tasks)
      && (!barred && g.depth > cfg.maxDepth ==> u.tasks == t.store.tasks)
      && (!barred && sampled && g.sampling.Skip? ==> u.tasks == t.store.tasks)
      && (!barred && sampled && g.sampling.ShouldSample? ==>
            HasActiveTask(u, EntityOf(g.did), SampleCreatorMedia)
            || TaskKey(CampaignOf(t, parent), EntityOf(g.did), SampleCreatorMedia) in t.store.taskKeys)
  {
    if g.sampling.ShouldSample? && !CreatorExcluded(t.store, g.did) {
      SampleEnqueued(t.store, Draft(t, cfg, g.did, SampleCreatorMedia, g.depth, g.confidence,
                                    parent, g.stamp.now, g.stamp.outboundRank));
    }
  }

  lemma SampleEnqueued(s: Store, draft: Task)
    requires !(draft.did != "" && CreatorExcluded(s, draft.did))
    ensures HasActiveTask(Enqueue(s, draft), draft.entity, draft.action) || draft.Key() in s.taskKeys
  {
    if MayEnqueue(s, draft) {
      var t := Enqueue(s, draft);
      assert t.counter in t.tasks && t.tasks[t.counter].entity == draft.entity;
    }
  }

  /** Each enabled follow source of a creator not too deep has an expansion task, or had one in this campaign. */
  lemma QualifiedIsExpanded(
    s: State, cfg: Config, did: Did, depth: nat, priority: real, parent: Option<TaskId>, stamp: Stamp)
    requires Valid(s.store) && depth < cfg.maxDepth && !(did != "" && CreatorExcluded(s.store, did))
    ensures var t := EnqueueExpansion(s, cfg, did, depth, priority, parent, stamp);
      && (cfg.outbound.enabled && cfg.outbound.oracle ==> IsOrWas(s, t, did, ExpandOutboundFollows, parent))
      && (cfg.suggested.enabled && cfg.suggested.oracle ==> IsOrWas(s, t, did, ExpandSuggestedFollows, parent))
  {
    var outbound :=
      Draft(s, cfg, did, ExpandOutboundFollows, depth, priority, parent, stamp.now, stamp.outboundRank);
    var suggested :=
      Draft(s, cfg, did, ExpandSuggestedFollows, depth, priority, parent, stamp.now, stamp.suggestedRank);
    SampleEnqueued(s.store, outbound);
    SampleEnqueued(s.store, suggested);
    SampleEnqueued(Enqueue(s.store, outbound), suggested);
    EnqueueExtends(s.store, outbound);
    EnqueueExtends(Enqueue(s.store, outbound), suggested);
    StaysActive(Enqueue(s.store, outbound), Enqueue(Enqueue(s.store, outbound), suggested), EntityOf(did),
                ExpandOutboundFollows);
    EnqueueAddsKey(s.store, outbound);
    hide Valid, Enqueue, HasActiveTask;
  }

  predicate IsOrWas(s: State, t: Store, did: Did, action: Action, parent: Option<TaskId>) {
    HasActiveTask(t, EntityOf(did), action) || TaskKey(CampaignOf(s, parent), EntityOf(did), action) in s.store.taskKeys
  }

  lemma StaysActive(a: Store, b: Store, entity: EntityId, action: Action)
    requires Extends(a, b)
    ensures HasActiveTask(a, entity, action) ==> HasActiveTask(b, entity, action)
  {
    if HasActiveTask(a, entity, action) {
      var id :| id in a.tasks && a.tasks[id].entity == entity && a.tasks[id].action == action
                && IsActive(a.tasks[id].status);
      assert id in b.tasks && b.tasks[id] == a.tasks[id];
    }
  }

  lemma EnqueueAddsKey(s: Store, draft: Task)
    ensures Enqueue(s, draft).taskKeys <= s.taskKeys + {draft.Key()}
    ensures Enqueue(s, draft).exclusions == s.exclusions
  {
  }

  // ----- how a task begins -----

  /**
   A task without a creator fails; one of an excluded creator, beyond the depth limit, without its
   source or after the media budget is spent ends at once; the others go on, and only they.
   */
  lemma TaskBegins(s: State, cfg: Config, id: TaskId)
    requires id in s.store.tasks
    ensures var t, task := BeginTask(s, cfg, id), TaskOf(s, id);
      var excluded := CreatorExcluded(s.store, task.did);
      match task.action
      case SampleCreatorMedia =>
        && (task.did == "" ==> t == Abort(s, id))
        && (task.did != "" && (excluded || s.mediaCount >= cfg.mediaBudget) ==> t == Finish(s, id))
        && (task.did != "" && !excluded && s.mediaCount < cfg.mediaBudget ==> t == SetPhase(s, id, Fetching))
      case ExpandOutboundFollows => Expands(s, t, cfg, id, cfg.outbound.oracle, cfg.outboundLimit)
      case ExpandSuggestedFollows => Expands(s, t, cfg, id, cfg.suggested.oracle, cfg.suggestedLimit)
      case _ => t == Abort(s, id)
  {
  }

  predicate Expands(s: State, t: State, cfg: Config, id: TaskId, oracle: bool, limit: nat)
    requires id in s.store.tasks
  {
    var task := TaskOf(s, id);
    var deep := task.depth >= cfg.maxDepth;
    var excluded := CreatorExcluded(s.store, task.did);
    && (!oracle || deep ==> t == Finish(s, id))
    && (oracle && !deep && task.did == "" ==> t == Abort(s, id))
    && (oracle && !deep && task.did != "" && excluded ==> t == Finish(s, id))
    && (oracle && !deep && task.did != "" && !excluded ==> t == SetPhase(s, id, AwaitingLock(limit)))
  }

  /** The suggestions that the expansion `id` may still consume. */
  function StillWanted(s: State, id: TaskId): nat {
    if id in s.jobs && s.jobs[id].Expanding? then s.jobs[id].left
    else if id in s.jobs && s.jobs[id].AwaitingLock? then s.jobs[id].limit else 0
  }

  function Consumes(step: Step, id: TaskId): nat {
    if (step.Suggest? || step.SkipSuggestion?) && step.id == id then 1 else 0
  }

  function Consumed(steps: seq<Step>, id: TaskId): nat {
    if steps == [] then 0 else Consumes(steps[0], id) + Consumed(steps[1..], id)
  }

  lemma BeginConsumes(s: State, cfg: Config, begun: TaskId, id: TaskId)
    requires begun in s.store.tasks && begun != id
    ensures StillWanted(BeginTask(s, cfg, begun), id) == StillWanted(s, id)
  {
    BeginOutcomes(s, cfg, begun);
    hide BeginTask, Complete, Fail, FailStatus, Unlock;
  }

  lemma SuggestConsumes(s: State, cfg: Config, step: Step, id: TaskId)
    requires Sound(s) && Enabled(s, cfg, step) && (step.Suggest? || step.IngestInitial?)
    ensures StillWanted(Apply(s, cfg, step), id) + Consumes(step, id) == StillWanted(s, id)
  {
    hide Valid, Ingest, LocksFit, LeasesHeld;
    if step.Suggest? {
      IngestKeepsValid(s, cfg, step.suggestion, Some(TaskOf(s, step.id).did), Some(step.id));
    } else {
      IngestKeepsValid(s, cfg, step.suggestion, None, None);
    }
  }

  /** Steps that start no task and no batch. */
  predicate GoesOn(step: Step, id: TaskId) {
    !(step.Begin? && step.id == id) && !step.ClaimBatch? && !step.Restart?
  }

  lemma StepConsumes(s: State, cfg: Config, step: Step, id: TaskId)
    requires Sound(s) && Enabled(s, cfg, step) && GoesOn(step, id)
    ensures StillWanted(Apply(s, cfg, step), id) + Consumes(step, id) <= StillWanted(s, id)
  {
    hide Sound, Ingest, EnqueueExpansion, Complete, Fail, FailStatus, ChildDids, Unlock, BeginTask;
    if step.Suggest? || step.IngestInitial? {
      SuggestConsumes(s, cfg, step, id);
    } else if step.Begin? {
      BeginConsumes(s, cfg, step.id, id);
    }
  }

  /** Until the next batch, an expansion consumes no more suggestions than its follow limit allows. */
  lemma {:induction false} ExpansionIsLimited(s: State, cfg: Config, steps: seq<Step>, id: TaskId)
    requires Sound(s) && Legal(s, cfg, steps) && forall i | 0 <= i < |steps| :: GoesOn(steps[i], id)
    ensures Consumed(steps, id) + StillWanted(Run(s, cfg, steps), id) <= StillWanted(s, id)
    decreases |steps|
  {
    if steps != [] {
      StepKeepsSound(s, cfg, steps[0]);
      StepConsumes(s, cfg, steps[0], id);
      hide Sound, Apply, StillWanted, Consumes, GoesOn;
      ExpansionIsLimited(Apply(s, cfg, steps[0]), cfg, steps[1..], id);
    }
  }
}
