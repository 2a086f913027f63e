/**
 The coordinator's count of added expansion children. Each expansion adds, when it ends, the
 children it finds beyond those it found when it took the creator's lock. Because of the lock
 no child is counted twice, and none is missed but those of an expansion that failed.
 */
module ExpansionCount {
  import opened Wrappers
  import opened Frontier
  import opened Campaign
  import opened CampaignBounds

  datatype Pair = Pair(parent: Did, child: Did)

  /** The recorded expansion edges. */
  function Pairs(observations: seq<Observation>): set<Pair> {
    set o | o in observations && o.parent.Some? && o.expansionEdge && o.did != o.parent.value
      :: Pair(o.parent.value, o.did)
  }

  predicate InProgress(s: State, did: Did) {
    did in s.locks && s.locks[did] in s.jobs && s.jobs[s.locks[did]].Expanding?
  }

  /** Found by an expansion that has not ended. */
  predicate IsFresh(s: State, p: Pair) {
    InProgress(s, p.parent) && p.child !in s.jobs[s.locks[p.parent]].existing
  }

  function FreshPairs(s: State): set<Pair> {
    set p | p in Pairs(s.store.observations) && IsFresh(s, p)
  }

  /** The edges that no expansion has counted or will count when it ends well. */
  function Uncounted(s: State): int {
    |Pairs(s.store.observations)| - s.expansionAdded - |FreshPairs(s)|
  }

  /** An expansion knows children only. */
  ghost predicate ExistingFit(s: State) {
    forall did | InProgress(s, did) :: s.jobs[s.locks[did]].existing <= ChildDids(s.store, did)
  }

  lemma PairsAreChildren(s: Store, p: Pair)
    ensures p in Pairs(s.observations) <==> p.child in ChildDids(s, p.parent)
  {
    if p.child in ChildDids(s, p.parent) {
      var o :| o in s.observations && o.parent == Some(p.parent) && o.expansionEdge
               && o.did != p.parent && o.did == p.child;
      assert Pair(o.parent.value, o.did) == p;
    }
  }

  lemma SameFresh(s: State, t: State)
    requires Pairs(t.store.observations) == Pairs(s.store.observations) && t.expansionAdded == s.expansionAdded
    requires forall p | p in Pairs(s.store.observations) :: IsFresh(t, p) <==> IsFresh(s, p)
    ensures Uncounted(t) == Uncounted(s)
  {
    assert FreshPairs(t) == FreshPairs(s);
  }

  // ----- steps that neither record a child nor end an expansion -----

  predicate Quiet(step: Step) {
    !step.Suggest? && !step.EndOracle? && !step.Throw? && !step.Restart?
  }

  lemma QuietKeepsFresh(s: State, cfg: Config, step: Step, p: Pair)
    requires Sound(s) && Enabled(s, cfg, step) && Quiet(step) && !step.Lock?
    ensures InProgress(s, p.parent) <==> InProgress(Apply(s, cfg, step), p.parent)
    ensures InProgress(s, p.parent) ==>
      Apply(s, cfg, step).jobs[Apply(s, cfg, step).locks[p.parent]].existing == s.jobs[s.locks[p.parent]].existing
    ensures Apply(s, cfg, step).expansionAdded == s.expansionAdded
  {
    hide Valid, Schedule, EnqueueExpansion, Complete, Fail, FailStatus;
    if step.Begin? {
      BeginOutcomes(s, cfg, step.id);
    } else if step.ClaimBatch? {
      assert s.locks == map[];
    }
  }

  lemma IngestPairs(s: State, cfg: Config, g: Suggestion, parentDid: Option<Did>, parent: Option<TaskId>)
    requires Valid(s.store)
    ensures var before := Pairs(s.store.observations);
            var after := Pairs(Ingest(s, cfg, g, parentDid, parent).store.observations);
            && (after == before || (parentDid.Some? && after == before + {Pair(parentDid.value, g.did)}))
    ensures Ingest(s, cfg, g, parentDid, parent).expansionAdded == s.expansionAdded
  {
    var t := Note(s, g, parentDid, parent);
    ScheduleKeepsValid(t, cfg, g, parent);
    PairsAfterRecord(s.store, Observation(CampaignOf(s, parent), g.did, g.source, parentDid, parentDid.Some?));
  }

  lemma PairsAfterRecord(s: Store, o: Observation)
    ensures var before, after := Pairs(s.observations), Pairs(Record(s, o).observations);
            after == before || (o.parent.Some? && o.expansionEdge && after == before + {Pair(o.parent.value, o.did)})
  {
    var before, after := Pairs(s.observations), Pairs(Record(s, o).observations);
    if o !in s.observations {
      assert o in Record(s, o).observations;
      assert forall x | x in s.observations :: x in Record(s, o).observations;
      assert before <= after;
    }
  }

  lemma ChildrenOnlyGrow(s: Store, t: Store, did: Did)
    requires Pairs(s.observations) <= Pairs(t.observations)
    ensures ChildDids(s, did) <= ChildDids(t, did)
  {
    forall c | c in ChildDids(s, did) ensures c in ChildDids(t, did) {
      PairsAreChildren(s, Pair(did, c));
      PairsAreChildren(t, Pair(did, c));
    }
  }

  lemma QuietCounts(s: State, cfg: Config, step: Step)
    requires Sound(s) && ExistingFit(s) && Enabled(s, cfg, step) && Quiet(step) && !step.Lock?
    ensures ExistingFit(Apply(s, cfg, step)) && Uncounted(Apply(s, cfg, step)) == Uncounted(s)
  {
    var t := Apply(s, cfg, step);
    if step.IngestInitial? {
      IngestPairs(s, cfg, step.suggestion, None, None);
    } else {
      OtherStepsKeepChildren(s, cfg, step);
    }
    forall p: Pair ensures IsFresh(t, p) <==> IsFresh(s, p) {
      QuietKeepsFresh(s, cfg, step, p);
    }
    QuietKeepsFresh(s, cfg, step, Pair("", ""));
    SameFresh(s, t);
    hide Apply, Sound, Enabled, IsFresh, Pairs, ChildDids;
    forall did | InProgress(t, did) ensures t.jobs[t.locks[did]].existing <= ChildDids(t.store, did) {
      QuietKeepsFresh(s, cfg, step, Pair(did, ""));
      ChildrenOnlyGrow(s.store, t.store, did);
    }
  }

  // ----- taking the lock -----

  /** At its start an expansion has found nothing new. */
  lemma LockCounts(s: State, cfg: Config, step: Step)
    requires Sound(s) && ExistingFit(s) && Enabled(s, cfg, step) && step.Lock?
    ensures ExistingFit(Apply(s, cfg, step)) && Uncounted(Apply(s, cfg, step)) == Uncounted(s)
  {
    hide Valid, Complete;
    var t := Apply(s, cfg, step);
    OtherStepsKeepChildren(s, cfg, step);
    forall p | p in Pairs(s.store.observations) ensures IsFresh(t, p) <==> IsFresh(s, p) {
      PairsAreChildren(s.store, p);
    }
    SameFresh(s, t);
    assert forall did :: ChildDids(t.store, did) == ChildDids(s.store, did);
  }

  // ----- recording a child -----

  lemma SuggestFresh(s: State, cfg: Config, step: Step, p: Pair)
    requires Sound(s) && Enabled(s, cfg, step) && step.Suggest?
    ensures IsFresh(Apply(s, cfg, step), p) <==> IsFresh(s, p)
    ensures InProgress(Apply(s, cfg, step), p.parent) <==> InProgress(s, p.parent)
    ensures InProgress(s, p.parent) ==>
      Apply(s, cfg, step).jobs[Apply(s, cfg, step).locks[p.parent]].existing == s.jobs[s.locks[p.parent]].existing
  {
    IngestKeepsValid(s, cfg, step.suggestion, Some(TaskOf(s, step.id).did), Some(step.id));
    hide Valid, Ingest;
  }

  /** A new child of the lock holder is new to it. */
  lemma NewPairIsFresh(s: State, id: TaskId, p: Pair)
    requires Sound(s) && ExistingFit(s) && id in s.jobs && s.jobs[id].Expanding?
    requires id in s.store.tasks && s.store.tasks[id].did == p.parent && p !in Pairs(s.store.observations)
    ensures IsFresh(s, p)
  {
    PairsAreChildren(s.store, p);
    assert InProgress(s, p.parent);
  }

  lemma SuggestCounts(s: State, cfg: Config, step: Step)
    requires Sound(s) && ExistingFit(s) && Enabled(s, cfg, step) && step.Suggest?
    ensures ExistingFit(Apply(s, cfg, step)) && Uncounted(Apply(s, cfg, step)) == Uncounted(s)
  {
    var t, parent := Apply(s, cfg, step), TaskOf(s, step.id).did;
    var p := Pair(parent, step.suggestion.did);
    IngestPairs(s, cfg, step.suggestion, Some(parent), Some(step.id));
    var before, after := Pairs(s.store.observations), Pairs(t.store.observations);
    if p !in before {
      NewPairIsFresh(s, step.id, p);
    }
    assert t.expansionAdded == s.expansionAdded;
    hide Apply, Sound, Enabled, IsFresh, Pairs, ChildDids;
    forall q: Pair ensures IsFresh(t, q) <==> IsFresh(s, q) {
      SuggestFresh(s, cfg, step, q);
    }
    if after == before {
      assert FreshPairs(t) == FreshPairs(s);
    } else {
      assert FreshPairs(t) == FreshPairs(s) + {p};
    }
    forall did | InProgress(t, did) ensures t.jobs[t.locks[did]].existing <= ChildDids(t.store, did) {
      SuggestFresh(s, cfg, step, Pair(did, ""));
      ChildrenOnlyGrow(s.store, t.store, did);
    }
  }

  // ----- ending an expansion -----

  function PairsOf(did: Did, children: set<Did>): set<Pair> {
    set c | c in children :: Pair(did, c)
  }

  lemma {:induction false} PairsOfCount(did: Did, children: set<Did>)
    ensures |PairsOf(did, children)| == |children|
    decreases |children|
  {
    if children != {} {
      var c :| c in children;
      PairsOfCount(did, children - {c});
      assert PairsOf(did, children) == PairsOf(did, children - {c}) + {Pair(did, c)};
    }
  }

  /** What the expansion `id` has found. */
  function FoundBy(s: State, id: TaskId): set<Pair>
    requires id in s.jobs && s.jobs[id].Expanding? && id in s.store.tasks
  {
    var did := TaskOf(s, id).did;
    PairsOf(did, ChildDids(s.store, did) - s.jobs[id].existing)
  }

  lemma FoundIsFresh(s: State, id: TaskId, p: Pair)
    requires Sound(s) && id in s.jobs && s.jobs[id].Expanding? && id in s.store.tasks
    ensures p in FoundBy(s, id) <==> p in FreshPairs(s) && s.locks[p.parent] == id
  {
    PairsAreChildren(s.store, p);
    var did := TaskOf(s, id).did;
    assert InProgress(s, did) && s.locks[did] == id;
    assert p in FoundBy(s, id) <==>
      p.parent == did && p.child in ChildDids(s.store, did) - s.jobs[id].existing;
  }

  /** Ending `id` in any way takes exactly its own pairs out of the fresh ones. */
  lemma EndFresh(s: State, t: State, id: TaskId)
    requires Sound(s) && id in s.jobs && s.jobs[id].Expanding? && id in s.store.tasks
    requires t.jobs == s.jobs - {id} && t.locks == Unlock(s, id) && t.store.observations == s.store.observations
    ensures FreshPairs(t) == FreshPairs(s) - FoundBy(s, id)
    ensures FoundBy(s, id) <= FreshPairs(s)
  {
    forall p: Pair ensures p in FreshPairs(t) <==> p in FreshPairs(s) && p !in FoundBy(s, id) {
      FoundIsFresh(s, id, p);
    }
    forall p | p in FoundBy(s, id) ensures p in FreshPairs(s) {
      FoundIsFresh(s, id, p);
    }
  }

  lemma EndKeepsExisting(s: State, t: State, id: TaskId)
    requires ExistingFit(s)
    requires t.jobs == s.jobs - {id} && t.locks == Unlock(s, id) && t.store.observations == s.store.observations
    ensures ExistingFit(t)
  {
    forall did | InProgress(t, did) ensures t.jobs[t.locks[did]].existing <= ChildDids(t.store, did) {
      assert InProgress(s, did);
      ChildrenOnlyGrow(s.store, t.store, did);
    }
  }

  /** A good end counts exactly what was found. */
  lemma EndCounts(s: State, cfg: Config, step: Step)
    requires Sound(s) && ExistingFit(s) && Enabled(s, cfg, step) && step.EndOracle?
    ensures ExistingFit(Apply(s, cfg, step)) && Uncounted(Apply(s, cfg, step)) == Uncounted(s)
  {
    var t, did := Apply(s, cfg, step), TaskOf(s, step.id).did;
    OtherStepsKeepChildren(s, cfg, step);
    EndFresh(s, t, step.id);
    EndKeepsExisting(s, t, step.id);
    PairsOfCount(did, ChildDids(s.store, did) - s.jobs[step.id].existing);
  }

  /** A failing expansion leaves what it found uncounted. */
  lemma ThrowCounts(s: State, cfg: Config, step: Step)
    requires Sound(s) && ExistingFit(s) && Enabled(s, cfg, step) && step.Throw?
    ensures ExistingFit(Apply(s, cfg, step))
    ensures var found := if s.jobs[step.id].Expanding? then |FoundBy(s, step.id)| else 0;
            Uncounted(Apply(s, cfg, step)) == Uncounted(s) + found
  {
    var t := Apply(s, cfg, step);
    OtherStepsKeepChildren(s, cfg, step);
    EndKeepsExisting(s, t, step.id);
    if s.jobs[step.id].Expanding? {
      EndFresh(s, t, step.id);
    } else {
      forall p: Pair ensures IsFresh(t, p) <==> IsFresh(s, p) {
        IdleEnd(s, t, step.id, p);
      }
      SameFresh(s, t);
    }
  }

  lemma IdleEnd(s: State, t: State, id: TaskId, p: Pair)
    requires Sound(s) && id in s.jobs && !s.jobs[id].Expanding?
    requires t.jobs == s.jobs - {id} && t.locks == Unlock(s, id)
    ensures IsFresh(t, p) <==> IsFresh(s, p)
  {
  }

  // ----- whole runs -----

  /** What the failing expansions of a run had found. */
  ghost function Lost(s: State, cfg: Config, steps: seq<Step>): nat
    requires Legal(s, cfg, steps)
    decreases |steps|
  {
    if steps == [] then 0
    else
      (if steps[0].Throw? && s.jobs[steps[0].id].Expanding? then |FoundBy(s, steps[0].id)| else 0)
      + Lost(Apply(s, cfg, steps[0]), cfg, steps[1..])
  }

  lemma StepCounts(s: State, cfg: Config, step: Step)
    requires Sound(s) && ExistingFit(s) && Enabled(s, cfg, step) && !step.Restart?
    ensures ExistingFit(Apply(s, cfg, step))
    ensures var lost := if step.Throw? && s.jobs[step.id].Expanding? then |FoundBy(s, step.id)| else 0;
            Uncounted(Apply(s, cfg, step)) == Uncounted(s) + lost
  {
    hide Apply, Sound, Uncounted, ExistingFit, FoundBy;
    if step.Suggest? {
      SuggestCounts(s, cfg, step);
    } else if step.EndOracle? {
      EndCounts(s, cfg, step);
    } else if step.Throw? {
      ThrowCounts(s, cfg, step);
    } else if step.Lock? {
      LockCounts(s, cfg, step);
    } else {
      QuietCounts(s, cfg, step);
    }
  }

  lemma {:induction false} RunCounts(s: State, cfg: Config, steps: seq<Step>)
    requires Sound(s) && ExistingFit(s) && Legal(s, cfg, steps) && NoRestart(steps)
    ensures Uncounted(Run(s, cfg, steps)) == Uncounted(s) + Lost(s, cfg, steps)
    decreases |steps|
  {
    hide Apply, Sound, Uncounted, ExistingFit, FoundBy;
    if steps != [] {
      StepKeepsSound(s, cfg, steps[0]);
      StepCounts(s, cfg, steps[0]);
      RunCounts(Apply(s, cfg, steps[0]), cfg, steps[1..]);
    }
  }

  /**
   When no task is running, the count of added children is exactly the growth of the recorded
   expansion edges in this run, less what failing expansions had found.
   */
  lemma AddedIsGrowth(store: Store, campaign: CampaignId, cfg: Config, steps: seq<Step>)
    requires Valid(store) && NoRestart(steps) && Legal(NewRun(store, campaign, cfg), cfg, steps)
    ensures var s := NewRun(store, campaign, cfg);
            var t := Run(s, cfg, steps);
            t.jobs == map[] ==>
              t.expansionAdded + Lost(s, cfg, steps) + |Pairs(store.observations)| == |Pairs(t.store.observations)|
  {
    var s := NewRun(store, campaign, cfg);
    NewRunIsSound(store, campaign, cfg);
    assert FreshPairs(s) == {};
    RunCounts(s, cfg, steps);
    var t := Run(s, cfg, steps);
    if t.jobs == map[] {
      assert FreshPairs(t) == {};
    }
  }
}
