/**
 Why a campaign ends: from a fresh store, tasks exist only for creators the run has seen,
 each (creator, action) is enqueued once, and each task is claimed a bounded number of times.
 So the claims of a campaign, and with them the rounds of the drain loop, are bounded even
 without the per-run task cap.
 */
module CampaignBounds {
  import opened Wrappers
  import opened Frontier
  import opened Campaign

  predicate CrawlAction(action: Action) {
    action.SampleCreatorMedia? || action.ExpandOutboundFollows? || action.ExpandSuggestedFollows?
  }

  /** Every task belongs to this campaign and to a creator in `seen`. */
  ghost predicate Owned(store: Store, campaign: CampaignId, seen: set<Did>, maxAttempts: nat) {
    && (forall id | id in store.tasks ::
          store.tasks[id].did in seen && store.tasks[id].maxAttempts == maxAttempts)
    && store.taskKeys <= CrawlKeys(campaign, seen)
  }

  function KeysFor(campaign: CampaignId, seen: set<Did>, action: Action): set<TaskKey> {
    set did | did in seen :: TaskKey(campaign, EntityOf(did), action)
  }

  function CrawlKeys(campaign: CampaignId, seen: set<Did>): set<TaskKey> {
    KeysFor(campaign, seen, SampleCreatorMedia) + KeysFor(campaign, seen, ExpandOutboundFollows)
    + KeysFor(campaign, seen, ExpandSuggestedFollows)
  }

  lemma {:induction false} KeysForCount(campaign: CampaignId, seen: set<Did>, action: Action)
    ensures |KeysFor(campaign, seen, action)| <= |seen|
    decreases |seen|
  {
    if seen != {} {
      var did :| did in seen;
      KeysForCount(campaign, seen - {did}, action);
      assert KeysFor(campaign, seen, action)
          == KeysFor(campaign, seen - {did}, action) + {TaskKey(campaign, EntityOf(did), action)};
    }
  }

  lemma CrawlKeysCount(campaign: CampaignId, seen: set<Did>)
    ensures |CrawlKeys(campaign, seen)| <= 3 * |seen|
  {
    KeysForCount(campaign, seen, SampleCreatorMedia);
    KeysForCount(campaign, seen, ExpandOutboundFollows);
    KeysForCount(campaign, seen, ExpandSuggestedFollows);
  }

  lemma OwnedGrows(store: Store, campaign: CampaignId, seen: set<Did>, more: set<Did>, maxAttempts: nat)
    requires Owned(store, campaign, seen, maxAttempts) && seen <= more
    ensures Owned(store, campaign, more, maxAttempts)
  {
  }

  lemma EnqueueKeepsOwned(store: Store, draft: Task, campaign: CampaignId, seen: set<Did>)
    requires Valid(store) && Owned(store, campaign, seen, draft.maxAttempts)
    requires draft.did in seen && draft.entity == EntityOf(draft.did)
    requires draft.campaign == campaign && CrawlAction(draft.action)
    ensures Owned(Enqueue(store, draft), campaign, seen, draft.maxAttempts)
    ensures TotalAttempts(Enqueue(store, draft)) == TotalAttempts(store)
  {
    OpCountsAttempts(store, DoEnqueue(draft));
    assert draft.Key() in KeysFor(campaign, seen, draft.action);
  }

  lemma ExpansionKeepsOwned(
    s: State, cfg: Config, did: Did, depth: nat, priority: real, parent: Option<TaskId>, stamp: Stamp)
    requires Valid(s.store) && Owned(s.store, s.campaign, s.seen, cfg.maxAttempts) && did in s.seen
    ensures var t := EnqueueExpansion(s, cfg, did, depth, priority, parent, stamp);
            Owned(t, s.campaign, s.seen, cfg.maxAttempts) && TotalAttempts(t) == TotalAttempts(s.store)
  {
    var outbound := Draft(s, cfg, did, ExpandOutboundFollows, depth, priority, parent, stamp.now, stamp.outboundRank);
    var suggested :=
      Draft(s, cfg, did, ExpandSuggestedFollows, depth, priority, parent, stamp.now, stamp.suggestedRank);
    EnqueueKeepsOwned(s.store, outbound, s.campaign, s.seen);
    EnqueueKeepsOwned(s.store, suggested, s.campaign, s.seen);
    EnqueueExtends(s.store, outbound);
    EnqueueKeepsOwned(Enqueue(s.store, outbound), suggested, s.campaign, s.seen);
  }

  /** All claims so far are attempts of tasks this run created. */
  ghost predicate Accounted(s: State, cfg: Config) {
    && Owned(s.store, s.campaign, s.seen, cfg.maxAttempts)
    && s.claimed == TotalAttempts(s.store)
  }

  lemma IngestKeepsAccounted(
    s: State, cfg: Config, g: Suggestion, parentDid: Option<Did>, parent: Option<TaskId>)
    requires Valid(s.store) && Accounted(s, cfg)
    ensures Accounted(Ingest(s, cfg, g, parentDid, parent), cfg)
  {
    var t := Note(s, g, parentDid, parent);
    OwnedGrows(s.store, s.campaign, s.seen, t.seen, cfg.maxAttempts);
    assert Owned(t.store, t.campaign, t.seen, cfg.maxAttempts);
    assert TotalAttempts(t.store) == TotalAttempts(s.store);
    if CreatorExcluded(t.store, g.did) || g.blockedByLabel {
    } else if g.expandWithoutSampling && g.allowed {
      ExpansionKeepsOwned(t, cfg, g.did, g.depth, g.confidence, parent, g.stamp);
    } else if g.sampling.SkipQualified? {
      ExpansionKeepsOwned(t, cfg, g.did, g.depth, g.sampling.score, parent, g.stamp);
    } else if g.sampling.ShouldSample? {
      EnqueueKeepsOwned(t.store, Draft(t, cfg, g.did, SampleCreatorMedia, g.depth, g.confidence,
                                       parent, g.stamp.now, g.stamp.outboundRank), t.campaign, t.seen);
    }
  }

  lemma EndKeepsAccounted(s: State, cfg: Config, id: TaskId)
    requires Sound(s) && Accounted(s, cfg) && id in s.jobs
    ensures Accounted(Finish(s, id), cfg) && Accounted(Abort(s, id), cfg)
  {
    OpCountsAttempts(s.store, DoComplete(id, WORKER));
    OpCountsAttempts(s.store, DoFail(id, WORKER));
  }

  lemma ScoreKeepsAccounted(s: State, cfg: Config, step: Step)
    requires Sound(s) && Accounted(s, cfg) && Enabled(s, cfg, step) && step.Score?
    ensures Accounted(Apply(s, cfg, step), cfg)
  {
    EndKeepsAccounted(s, cfg, step.id);
    if step.qualified {
      var task := TaskOf(s, step.id);
      ExpansionKeepsOwned(s, cfg, task.did, task.depth, step.score, Some(step.id), step.stamp);
      EnqueueExpansionKeepsValid(s, cfg, task.did, task.depth, step.score, Some(step.id), step.stamp);
      var t := s.(store := EnqueueExpansion(s, cfg, task.did, task.depth, step.score, Some(step.id), step.stamp));
      ExtensionKeepsSound(s, t);
      EndKeepsAccounted(t, cfg, step.id);
    }
  }

  lemma ClaimKeepsAccounted(s: State, cfg: Config, step: Step)
    requires Sound(s) && Accounted(s, cfg) && Enabled(s, cfg, step) && step.ClaimBatch?
    ensures Accounted(Apply(s, cfg, step), cfg)
  {
    var op := DoClaim(step.ids, WORKER);
    OpCountsAttempts(s.store, op);
    assert Claims([op]) == |step.ids| by {
      assert [op][1..] == [];
    }
    ClaimedTasks(s.store, step.ids, WORKER);
  }

  /** Cancelled tasks keep their attempts and their creator. */
  lemma OperateKeepsAccounted(s: State, cfg: Config, step: Step)
    requires Accounted(s, cfg) && step.Operate? && Enabled(s, cfg, step)
    ensures Accounted(Apply(s, cfg, step), cfg)
  {
    AttemptsAgree(s.store.tasks, Apply(s, cfg, step).store.tasks, s.store.counter);
  }

  lemma StepKeepsAccounted(s: State, cfg: Config, step: Step)
    requires Sound(s) && Accounted(s, cfg) && Enabled(s, cfg, step) && !step.Restart?
    ensures Accounted(Apply(s, cfg, step), cfg)
  {
    match step
    case IngestInitial(g) => IngestKeepsAccounted(s, cfg, g, None, None);
    case Suggest(id, g) => IngestKeepsAccounted(s, cfg, g, Some(TaskOf(s, id).did), Some(id));
    case Score(_, _, _, _) => ScoreKeepsAccounted(s, cfg, step);
    case Begin(id) => BeginOutcomes(s, cfg, id); EndKeepsAccounted(s, cfg, id);
    case Lock(id) => EndKeepsAccounted(s, cfg, id);
    case EndOracle(id) => EndKeepsAccounted(s, cfg, id);
    case Throw(id, _) => EndKeepsAccounted(s, cfg, id);
    case ClaimBatch(_) => ClaimKeepsAccounted(s, cfg, step);
    case Operate(_, _) => OperateKeepsAccounted(s, cfg, step);
    case Reserve(_, _) =>
    case Judge(_, _) =>
    case SkipSuggestion(_) =>
    case StartDraining =>
    case Request(_) =>
  }

  predicate NoRestart(steps: seq<Step>) {
    forall i | 0 <= i < |steps| :: !steps[i].Restart?
  }

  /** The number of rounds of the drain loop. */
  function Rounds(steps: seq<Step>): nat {
    if steps == [] then 0 else (if steps[0].ClaimBatch? then 1 else 0) + Rounds(steps[1..])
  }

  /** The most claims a campaign can make: three actions per creator, each tried so often. */
  function MostClaims(cfg: Config): nat {
    (if cfg.maxAttempts == 0 then 1 else cfg.maxAttempts) * (3 * cfg.creatorBudget)
  }

  lemma StepClaims(s: State, cfg: Config, step: Step)
    requires Enabled(s, cfg, step) && !step.Restart?
    ensures Apply(s, cfg, step).claimed >= s.claimed + if step.ClaimBatch? then 1 else 0
  {
    if step.ClaimBatch? {
      assert |step.ids| >= 1;
    } else if step.Begin? {
      BeginOutcomes(s, cfg, step.id);
    }
  }

  lemma {:induction false} RunKeepsAccounted(s: State, cfg: Config, steps: seq<Step>)
    requires Sound(s) && WithinBudgets(s, cfg) && Accounted(s, cfg)
    requires Legal(s, cfg, steps) && NoRestart(steps)
    ensures var t := Run(s, cfg, steps);
            Sound(t) && WithinBudgets(t, cfg) && Accounted(t, cfg) && t.claimed >= s.claimed + Rounds(steps)
    decreases |steps|
  {
    if steps != [] {
      StepKeepsSound(s, cfg, steps[0]);
      StepKeepsBudgets(s, cfg, steps[0]);
      StepKeepsAccounted(s, cfg, steps[0]);
      StepClaims(s, cfg, steps[0]);
      RunKeepsAccounted(Apply(s, cfg, steps[0]), cfg, steps[1..]);
    }
  }

  lemma AccountedBound(s: State, cfg: Config)
    requires Valid(s.store) && WithinBudgets(s, cfg) && Accounted(s, cfg)
    ensures s.claimed <= MostClaims(cfg)
  {
    var most := if cfg.maxAttempts == 0 then 1 else cfg.maxAttempts;
    ClaimsBound(s.store, most);
    CrawlKeysCount(s.campaign, s.seen);
    CardinalityMonotone(s.store.taskKeys, CrawlKeys(s.campaign, s.seen));
    MulMonotone(most, |s.store.taskKeys|, 3 * cfg.creatorBudget);
  }

  /**
   From a store without tasks, whatever the interleaving, a campaign claims at most three
   tasks per budgeted creator, each up to its attempt limit; every round of the drain loop
   uses up at least one of these claims, so the loop ends even without its task cap.
   */
  lemma CampaignEnds(store: Store, campaign: CampaignId, cfg: Config, steps: seq<Step>)
    requires Valid(store) && store.tasks == map[] && store.taskKeys == {}
    requires NoRestart(steps) && Legal(NewRun(store, campaign, cfg), cfg, steps)
    ensures Run(NewRun(store, campaign, cfg), cfg, steps).claimed <= MostClaims(cfg)
    ensures Rounds(steps) <= MostClaims(cfg)
  {
    var s := NewRun(store, campaign, cfg);
    NoTasksNoAttempts(store.tasks, store.counter);
    RunKeepsAccounted(s, cfg, steps);
    AccountedBound(Run(s, cfg, steps), cfg);
  }

  lemma {:induction false} NoTasksNoAttempts(tasks: map<TaskId, Task>, n: nat)
    requires tasks == map[]
    ensures Attempts(tasks, n) == 0
  {
    if n > 0 {
      NoTasksNoAttempts(tasks, n - 1);
    }
  }
}
