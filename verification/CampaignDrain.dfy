/**
 The coordinator never deadlocks: from every sound state, with any coroutines running and any
 creator locks held, some run of their own steps ends them all. No error and no outside
 help is needed, only answers to what they wait for.
 */
module CampaignDrain {
  import opened Wrappers
  import opened Frontier
  import opened Campaign

  /** A step that ends or advances a coroutine without an error. */
  predicate Regular(step: Step) {
    step.Begin? || step.Reserve? || step.Judge? || step.Score? || step.Lock? || step.EndOracle?
  }

  predicate AllRegular(steps: seq<Step>) {
    forall i | 0 <= i < |steps| :: Regular(steps[i])
  }

  /** How many steps a coroutine is from its end, at most. */
  function Rank(phase: Phase): nat {
    match phase
    case Started => 7
    case Fetching => 6
    case Processing(_) => 5
    case DeepFetching => 4
    case DeepProcessing(_) => 3
    case Scoring => 2
    case AwaitingLock(_) => 2
    case Expanding(_, _) => 1
  }

  /** The shortest way on: nothing fetched, not qualified, no further suggestion. */
  function NextStep(s: State, id: TaskId): Step
    requires id in s.jobs
  {
    match s.jobs[id]
    case Started => Begin(id)
    case Fetching => Reserve(id, 0)
    case Processing(_) => Judge(id, false)
    case DeepFetching => Reserve(id, 0)
    case DeepProcessing(_) => Judge(id, false)
    case Scoring => Score(id, false, 0.0, Stamp(0, 0, 0))
    case AwaitingLock(_) => Lock(id)
    case Expanding(_, _) => EndOracle(id)
  }

  /** The coroutine that may go on: a lock holder, or any one when no lock is held. */
  predicate MayGoOn(s: State, id: TaskId) {
    id in s.jobs && (s.jobs[id].Expanding? || s.locks == map[])
  }

  /** The coroutine ended, or it is closer to its end and may still go on. */
  predicate Advanced(s: State, t: State, id: TaskId)
    requires id in s.jobs
  {
    || t.jobs == s.jobs - {id}
    || (MayGoOn(t, id) && t.jobs == s.jobs[id := t.jobs[id]] && Rank(t.jobs[id]) < Rank(s.jobs[id]))
  }

  lemma Moves(s: State, t: State, id: TaskId, phase: Phase)
    requires id in s.jobs && t.jobs == s.jobs[id := phase] && Rank(phase) < Rank(s.jobs[id])
    requires phase.Expanding? || t.locks == map[]
    ensures Advanced(s, t, id)
  {
  }

  lemma BeginAdvances(s: State, cfg: Config, id: TaskId)
    requires id in s.jobs && id in s.store.tasks && s.jobs[id].Started? && s.locks == map[]
    ensures Advanced(s, BeginTask(s, cfg, id), id)
  {
    BeginOutcomes(s, cfg, id);
    hide BeginTask, Complete, Fail, FailStatus;
    var t := BeginTask(s, cfg, id);
    if t.jobs != s.jobs - {id} {
      Moves(s, t, id, t.jobs[id]);
    }
  }

  lemma LockAdvances(s: State, cfg: Config, id: TaskId)
    requires id in s.jobs && id in s.store.tasks && s.jobs[id].AwaitingLock?
    ensures Advanced(s, TakeLock(s, cfg, id), id)
  {
    hide Complete, ChildDids;
    var t := TakeLock(s, cfg, id);
    if t.jobs != s.jobs - {id} {
      Moves(s, t, id, t.jobs[id]);
    }
  }

  lemma PhaseAdvances(s: State, cfg: Config, id: TaskId)
    requires id in s.jobs && s.locks == map[] && Enabled(s, cfg, NextStep(s, id))
    requires NextStep(s, id).Reserve? || NextStep(s, id).Judge?
    ensures Advanced(s, Apply(s, cfg, NextStep(s, id)), id)
  {
    var t := Apply(s, cfg, NextStep(s, id));
    Moves(s, t, id, t.jobs[id]);
  }

  lemma NextIsEnabled(s: State, cfg: Config, id: TaskId)
    requires Sound(s) && MayGoOn(s, id)
    ensures Enabled(s, cfg, NextStep(s, id)) && id in s.store.tasks
  {
    assert Holds(s.store, id, WORKER);
  }

  lemma NextStepAdvances(s: State, cfg: Config, id: TaskId)
    requires Sound(s) && MayGoOn(s, id)
    ensures Enabled(s, cfg, NextStep(s, id)) && Regular(NextStep(s, id))
    ensures Advanced(s, Apply(s, cfg, NextStep(s, id)), id)
  {
    NextIsEnabled(s, cfg, id);
    hide Sound, Complete, ChildDids, ReserveMedia, BeginTask, TakeLock;
    match s.jobs[id]
    case Started => BeginAdvances(s, cfg, id);
    case AwaitingLock(_) => LockAdvances(s, cfg, id);
    case Scoring =>
    case Expanding(_, _) =>
    case _ => PhaseAdvances(s, cfg, id);
  }

  /** One coroutine after another can be brought to its end, the others untouched. */
  lemma {:induction false} OneEnds(s: State, cfg: Config, id: TaskId) returns (steps: seq<Step>)
    requires Sound(s) && MayGoOn(s, id)
    ensures Legal(s, cfg, steps) && AllRegular(steps)
    ensures Sound(Run(s, cfg, steps)) && Run(s, cfg, steps).jobs == s.jobs - {id}
    decreases Rank(s.jobs[id])
  {
    hide Sound, Apply, Enabled, Rank, NextStep;
    var step := NextStep(s, id);
    NextStepAdvances(s, cfg, id);
    var t := Apply(s, cfg, step);
    StepKeepsSound(s, cfg, step);
    if t.jobs == s.jobs - {id} {
      steps := [step];
      assert steps[1..] == [];
    } else {
      var rest := OneEnds(t, cfg, id);
      steps := [step] + rest;
      assert steps[1..] == rest;
      assert t.jobs - {id} == s.jobs - {id};
    }
  }

  lemma {:induction false} LegalThenLegal(s: State, cfg: Config, first: seq<Step>, rest: seq<Step>)
    requires Legal(s, cfg, first) && Legal(Run(s, cfg, first), cfg, rest)
    ensures Legal(s, cfg, first + rest) && Run(s, cfg, first + rest) == Run(Run(s, cfg, first), cfg, rest)
    decreases |first|
  {
    if first == [] {
      assert first + rest == rest;
    } else {
      assert (first + rest)[1..] == first[1..] + rest;
      LegalThenLegal(Apply(s, cfg, first[0]), cfg, first[1..], rest);
    }
  }

  /** Some coroutine may always go on. */
  lemma SomeMayGoOn(s: State) returns (id: TaskId)
    requires Sound(s) && s.jobs != map[]
    ensures MayGoOn(s, id)
  {
    if s.locks == map[] {
      id :| id in s.jobs;
    } else {
      var did :| did in s.locks;
      id := s.locks[did];
    }
  }

  /**
   No deadlock: from every sound state some run of regular steps ends all coroutines. Then all
   locks are free and no lease of this run is left.
   */
  lemma {:induction false} EveryBatchDrains(s: State, cfg: Config) returns (steps: seq<Step>)
    requires Sound(s)
    ensures Legal(s, cfg, steps) && AllRegular(steps)
    ensures Run(s, cfg, steps).jobs == map[] && Run(s, cfg, steps).locks == map[]
    decreases |s.jobs|
  {
    if s.jobs == map[] {
      steps := [];
      assert forall did :: did !in s.locks;
    } else {
      var id := SomeMayGoOn(s);
      var first := OneEnds(s, cfg, id);
      var t := Run(s, cfg, first);
      assert t.jobs.Keys == s.jobs.Keys - {id};
      var rest := EveryBatchDrains(t, cfg);
      LegalThenLegal(s, cfg, first, rest);
      steps := first + rest;
    }
  }
}
