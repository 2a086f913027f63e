/**
 The scan protocol of one actor over unboundedly many runs: posts arrive, scans are capped,
 resumed, fail or crash, and the stored row moves. The ghost multiset `examined` counts how
 often the candidates of each feed index were yielded.
 */
module IntakeProtocol {
  import opened Wrappers
  import opened AuthorScan

  datatype State = State(posts: seq<FeedItem>, row: ActorState, examined: multiset<nat>)

  /** `Crash` is an exception other than the API error: nothing is recorded. */
  datatype Step =
    | Arrive(newer: seq<FeedItem>)
    | Scan(report: ScanReport, count: nat, error: string)
    | Crash(report: ScanReport)

  ghost predicate Distinct(posts: seq<FeedItem>) {
    forall i, j | 0 <= i < j < |posts| && posts[i].uri != "" :: posts[i].uri != posts[j].uri
  }

  function Interval(lo: nat, hi: nat): multiset<nat>
    decreases hi
  {
    if hi <= lo then multiset{} else Interval(lo, hi - 1) + multiset{hi - 1}
  }

  lemma {:induction false} IntervalCount(lo: nat, hi: nat, i: nat)
    ensures Interval(lo, hi)[i] == if lo <= i < hi then 1 else 0
    decreases hi
  {
    if lo < hi {
      IntervalCount(lo, hi - 1, i);
    }
  }

  ghost predicate Enabled(s: State, step: Step) {
    match step
    case Arrive(newer) => Distinct(s.posts + newer)
    case Scan(r, _, _) => Reports(s, r)
    case Crash(r) => Reports(s, r)
  }

  function ScanStart(s: State): nat {
    Start(s.posts, s.row.resumeCursor)
  }

  ghost predicate Reports(s: State, r: ScanReport) {
    Explains(s.posts, ScanStart(s), s.row.highWater, s.row.pendingHighWater, r)
  }

  function Apply(s: State, step: Step): State {
    match step
    case Arrive(newer) => s.(posts := s.posts + newer)
    case Scan(r, count, error) =>
      State(s.posts, Advance(s.row, r, count, error), s.examined + Interval(r.lo, ScanStart(s)))
    case Crash(r) => s.(examined := s.examined + Interval(r.lo, ScanStart(s)))
  }

  function Run(s: State, steps: seq<Step>): State
    decreases |steps|
  {
    if steps == [] then s else Run(Apply(s, steps[0]), steps[1..])
  }

  ghost predicate Legal(s: State, steps: seq<Step>)
    decreases |steps|
  {
    steps == [] || (Enabled(s, steps[0]) && Legal(Apply(s, steps[0]), steps[1..]))
  }

  /** No scan is cut by the per-actor candidate limit. */
  predicate Uncut(steps: seq<Step>) {
    forall i | 0 <= i < |steps| :: steps[i].Scan? ==> !steps[i].report.end.CandidateLimit?
  }

  /** No scan fails and no page ends in an empty cursor. */
  predicate Clean(steps: seq<Step>) {
    forall i | 0 <= i < |steps| ::
      && !steps[i].Crash?
      && (steps[i].Scan? ==> !steps[i].report.end.ApiError? && !steps[i].report.next.EmptyCursor?)
  }

  /** A row whose high-water mark is the post `base` and that has no backlog. */
  ghost predicate Settled(s: State, base: nat) {
    && Distinct(s.posts) && base < |s.posts|
    && s.row.highWater != "" && s.posts[base].uri == s.row.highWater
    && s.row.pendingHighWater == "" && s.row.resumeCursor == NoCursor
  }

  // ----- the invariant -----

  /** `mark` is the index of the stored high-water post, `pend` that of the pending one. */
  ghost predicate Placed(s: State, mark: nat, pend: Option<nat>) {
    && Distinct(s.posts) && mark < |s.posts|
    && s.row.highWater != "" && s.posts[mark].uri == s.row.highWater
    && (pend == None <==> s.row.pendingHighWater == "")
    && (pend.Some? ==> mark < pend.value < |s.posts| && s.posts[pend.value].uri == s.row.pendingHighWater)
    && (s.row.resumeCursor.NoCursor? ==> pend == None)
    && (s.row.resumeCursor.At? ==> mark < s.row.resumeCursor.index <= |s.posts|)
  }

  /** Everything up to the mark has been examined, and everything from the cursor up to the pending post. */
  ghost predicate Covered(s: State, base: nat, mark: nat, pend: Option<nat>) {
    && Placed(s, mark, pend) && base <= mark
    && (forall i: nat | base < i <= mark :: s.examined[i] >= 1)
    && (s.row.resumeCursor.At? && pend.Some? ==>
          forall i: nat | s.row.resumeCursor.index <= i <= pend.value :: s.examined[i] >= 1)
  }

  /** How often a post with a uri has been examined when nothing failed. */
  function Expected(s: State, mark: nat, pend: Option<nat>, i: nat): nat {
    if i <= mark then 1
    else if s.row.resumeCursor.At? && pend.Some? && s.row.resumeCursor.index <= i <= pend.value then 1
    else 0
  }

  ghost predicate Exact(s: State, base: nat, mark: nat, pend: Option<nat>) {
    && !s.row.resumeCursor.EmptyCursor?
    && (s.row.resumeCursor.At? && pend.Some? ==> s.row.resumeCursor.index <= pend.value)
    && forall i: nat | base < i < |s.posts| && s.posts[i].uri != "" ::
         s.examined[i] == Expected(s, mark, pend, i)
  }

  /** Nothing beyond the feed can have been examined. */
  ghost predicate Bounded(s: State) {
    forall i: nat | i >= |s.posts| :: s.examined[i] == 0
  }

  /** Where the first uri below `hi` sits, and that only items without a uri lie above it. */
  lemma {:induction false} FirstUriAt(posts: seq<FeedItem>, lo: nat, hi: nat) returns (p: Option<nat>)
    requires lo <= hi <= |posts|
    ensures p == None <==> FirstUri(posts, lo, hi, "") == ""
    ensures p == None ==> forall i | lo <= i < hi :: posts[i].uri == ""
    ensures p.Some? ==> lo <= p.value < hi && posts[p.value].uri == FirstUri(posts, lo, hi, "")
                        && forall i | p.value < i < hi :: posts[i].uri == ""
    decreases hi
  {
    if lo == hi {
      p := None;
    } else if posts[hi - 1].uri != "" {
      p := Some(hi - 1);
    } else {
      p := FirstUriAt(posts, lo, hi - 1);
    }
  }

  /** The high-water post lies below the scan, and meeting it ends the scan just above it. */
  lemma ScanStaysAbove(s: State, mark: nat, pend: Option<nat>, r: ScanReport)
    requires Placed(s, mark, pend) && Reports(s, r)
    ensures mark < r.lo <= ScanStart(s) <= |s.posts|
    ensures mark < LookedDownTo(r) || r.end.HighWater?
    ensures !r.end.Exhausted?
    ensures r.end.HighWater? ==> r.lo == mark + 1
  {
  }

  /** A scan that met its stop post, or an item with candidates, has met a post. */
  lemma MeetsAPost(s: State, r: ScanReport)
    requires Reports(s, r) && (r.end.HighWater? || r.end.CandidateLimit?) && s.row.pendingHighWater == ""
    ensures r.newest != ""
  {
    if r.end.CandidateLimit? {
      var cut, start := CutIndex(r.lo, r.end), ScanStart(s);
      assert |Yields(s.posts, cut, start)| == |Yields(s.posts, cut + 1, start)| + s.posts[cut].candidates;
    }
    var p := FirstUriAt(s.posts, LookedDownTo(r), ScanStart(s));
    assert s.posts[LookedDownTo(r)].uri != "";
  }

  /** Where the two marks stand after a scan that did not fail. */
  lemma MarksAfter(s: State, mark: nat, pend: Option<nat>, r: ScanReport)
    returns (mark': nat, pend': Option<nat>)
    requires Placed(s, mark, pend) && Reports(s, r) && !r.end.ApiError?
    ensures r.end.PageCap? ==> mark' == mark && (pend.Some? ==> pend' == pend)
    ensures !r.end.PageCap? ==> pend' == None && (pend.Some? ==> mark' == pend.value)
    ensures pend == None ==>
      var p := if r.end.PageCap? then pend' else Some(mark');
      && (p == None <==> r.newest == "")
      && (p == None ==> forall i | r.lo <= i < ScanStart(s) :: s.posts[i].uri == "")
      && (p.Some? ==> LookedDownTo(r) <= p.value < ScanStart(s) && s.posts[p.value].uri == r.newest
                      && forall i | p.value < i < ScanStart(s) :: s.posts[i].uri == "")
  {
    ScanStaysAbove(s, mark, pend, r);
    mark', pend' := mark, pend;
    if pend == None {
      pend' := FirstUriAt(s.posts, LookedDownTo(r), ScanStart(s));
    }
    if !r.end.PageCap? {
      if pend == None {
        MeetsAPost(s, r);
      }
      mark', pend' := pend'.value, None;
    }
  }

  lemma ExaminedAfter(s: State, r: ScanReport)
    requires Reports(s, r)
    ensures forall i: nat ::
      (s.examined + Interval(r.lo, ScanStart(s)))[i]
      == s.examined[i] + if r.lo <= i < ScanStart(s) then 1 else 0
  {
    forall i: nat
      ensures (s.examined + Interval(r.lo, ScanStart(s)))[i]
              == s.examined[i] + if r.lo <= i < ScanStart(s) then 1 else 0
    {
      IntervalCount(r.lo, ScanStart(s), i);
    }
  }

  lemma ScanKeepsCovered(s: State, r: ScanReport, s': State, base: nat, mark: nat, pend: Option<nat>)
    returns (mark': nat, pend': Option<nat>)
    requires Covered(s, base, mark, pend) && Reports(s, r)
    requires r.end.HighWater? || r.end.PageCap?
    requires exists count, error :: s' == Apply(s, Scan(r, count, error))
    ensures mark <= mark'
    ensures Covered(s', base, mark', pend')
    ensures Exact(s, base, mark, pend) && Bounded(s) && !r.next.EmptyCursor? ==>
      Exact(s', base, mark', pend') && Bounded(s')
  {
    ScanStaysAbove(s, mark, pend, r);
    ExaminedAfter(s, r);
    mark', pend' := MarksAfter(s, mark, pend, r);
    if r.end.HighWater? {
      assert s'.row.resumeCursor == NoCursor && s'.row.pendingHighWater == "";
      assert Covered(s', base, mark', pend');
    } else {
      assert s'.row.resumeCursor == r.next;
      assert Covered(s', base, mark', pend');
    }
  }

  lemma StepKeepsCovered(s: State, step: Step, base: nat, mark: nat, pend: Option<nat>)
    returns (mark': nat, pend': Option<nat>)
    requires Covered(s, base, mark, pend) && Enabled(s, step)
    requires step.Scan? ==> !step.report.end.CandidateLimit?
    ensures mark <= mark'
    ensures Covered(Apply(s, step), base, mark', pend')
    ensures Exact(s, base, mark, pend) && Bounded(s) && Clean([step]) ==>
      Exact(Apply(s, step), base, mark', pend') && Bounded(Apply(s, step))
  {
    mark', pend' := mark, pend;
    assert [step][0] == step;
    if step.Scan? && !step.report.end.ApiError? {
      ScanStaysAbove(s, mark, pend, step.report);
      mark', pend' := ScanKeepsCovered(s, step.report, Apply(s, step), base, mark, pend);
    } else if !step.Arrive? {
      ExaminedAfter(s, step.report);
    }
  }

  lemma TailOf(steps: seq<Step>)
    requires steps != []
    ensures Uncut(steps) ==> Uncut(steps[1..]) && (steps[0].Scan? ==> !steps[0].report.end.CandidateLimit?)
    ensures Clean(steps) ==> Clean([steps[0]]) && Clean(steps[1..])
  {
  }

  lemma {:induction false} RunKeepsCovered(
    s: State, steps: seq<Step>, base: nat, mark: nat, pend: Option<nat>)
    returns (mark': nat, pend': Option<nat>)
    requires Covered(s, base, mark, pend) && Legal(s, steps) && Uncut(steps)
    ensures mark <= mark'
    ensures Covered(Run(s, steps), base, mark', pend')
    ensures Exact(s, base, mark, pend) && Bounded(s) && Clean(steps) ==>
      Exact(Run(s, steps), base, mark', pend') && Bounded(Run(s, steps))
    decreases |steps|
  {
    if steps == [] {
      mark', pend' := mark, pend;
    } else {
      var next := Apply(s, steps[0]);
      TailOf(steps);
      mark', pend' := StepKeepsCovered(s, steps[0], base, mark, pend);
      mark', pend' := RunKeepsCovered(next, steps[1..], base, mark', pend');
    }
  }

  // ----- the main results -----

  /** The first scan of an actor settles its row, whatever ends it. */
  lemma FirstScanSettles(s: State, r: ScanReport, count: nat, error: string) returns (base: nat)
    requires Distinct(s.posts) && Reports(s, r)
    requires s.row.highWater == "" && s.row.pendingHighWater == "" && s.row.resumeCursor == NoCursor
    requires !r.end.ApiError? && r.newest != ""
    ensures Settled(Apply(s, Scan(r, count, error)), base)
  {
    var p := FirstUriAt(s.posts, LookedDownTo(r), ScanStart(s));
    base := p.value;
  }

  /**
   A mark whose post was deleted is met by no scan. A scan that therefore runs to the end of the feed,
   from any row, has examined everything below its start, is complete and clears the backlog; it
   settles the row if it met a post, or if the pending post is still there, so the gap-free
   results start again.
   */
  lemma LostMarkRecovers(s: State, r: ScanReport, count: nat, error: string) returns (base: nat)
    requires Distinct(s.posts) && Reports(s, r)
    ensures (forall i | 0 <= i < |s.posts| :: s.posts[i].uri != s.row.highWater) ==> !r.end.HighWater?
    ensures r.end.Exhausted? ==>
      var t := Apply(s, Scan(r, count, error));
      && t.row.resumeCursor == NoCursor && t.row.pendingHighWater == "" && t.row.lastScanComplete
      && (r.newest != "" ==> t.row.highWater == r.newest)
      && (forall i: nat | i < ScanStart(s) :: t.examined[i] >= 1)
      && (r.newest != "" && (s.row.pendingHighWater == ""
                             || exists i | 0 <= i < |s.posts| :: s.posts[i].uri == s.row.pendingHighWater) ==>
            Settled(t, base))
  {
    base := 0;
    ExaminedAfter(s, r);
    if r.end.Exhausted? && r.newest != "" {
      if s.row.pendingHighWater == "" {
        var p := FirstUriAt(s.posts, LookedDownTo(r), ScanStart(s));
        base := p.value;
      } else if i :| 0 <= i < |s.posts| && s.posts[i].uri == s.row.pendingHighWater {
        KnownStays(s.posts, LookedDownTo(r), ScanStart(s), s.row.pendingHighWater);
        base := i;
      }
    }
  }

  lemma KnownStays(posts: seq<FeedItem>, lo: nat, hi: nat, known: Uri)
    requires lo <= hi <= |posts| && known != ""
    ensures FirstUri(posts, lo, hi, known) == known
  {
  }

  /**
   However arrivals, page caps, resumes, errors and crashes interleave, every post newer than
   the first mark and no newer than the current one has been examined.
   */
  lemma GapFree(s: State, steps: seq<Step>, base: nat) returns (mark: nat)
    requires Settled(s, base) && Legal(s, steps) && Uncut(steps)
    ensures base <= mark < |Run(s, steps).posts|
    ensures Run(s, steps).posts[mark].uri == Run(s, steps).row.highWater
    ensures forall i: nat | base < i <= mark :: Run(s, steps).examined[i] >= 1
  {
    var pend;
    mark, pend := RunKeepsCovered(s, steps, base, base, None);
  }

  /** Without errors each such post is examined exactly once, and no newer one more than once. */
  lemma ExactlyOnce(s: State, steps: seq<Step>, base: nat) returns (mark: nat)
    requires Settled(s, base) && s.examined == multiset{}
    requires Legal(s, steps) && Uncut(steps) && Clean(steps)
    ensures base <= mark < |Run(s, steps).posts|
    ensures Run(s, steps).posts[mark].uri == Run(s, steps).row.highWater
    ensures forall i: nat | base < i <= mark && Run(s, steps).posts[i].uri != "" ::
      Run(s, steps).examined[i] == 1
    ensures forall i: nat | mark < i < |Run(s, steps).posts| && Run(s, steps).posts[i].uri != "" ::
      Run(s, steps).examined[i] <= 1
  {
    var pend;
    mark, pend := RunKeepsCovered(s, steps, base, base, None);
  }

  // ----- scans cut by the candidate limit -----

  /** The newest item below `hi` by which the candidates of the items from `start` down use up the limit. */
  function FindCut(posts: seq<FeedItem>, lo: nat, hi: nat, start: nat, limit: Option<int>): (cut: Option<nat>)
    requires hi <= start <= |posts|
    ensures cut.Some? ==> limit.Some? && lo <= cut.value < hi
    decreases hi
  {
    if limit == None || hi <= lo then None
    else if |Yields(posts, hi - 1, start)| >= limit.value then Some(hi - 1)
    else FindCut(posts, lo, hi - 1, start, limit)
  }

  lemma {:induction false} YieldsGrow(posts: seq<FeedItem>, lo: nat, mid: nat, hi: nat)
    requires lo <= mid <= hi <= |posts|
    ensures |Yields(posts, lo, hi)| >= |Yields(posts, mid, hi)|
    decreases mid - lo
  {
    if lo < mid {
      YieldsGrow(posts, lo + 1, mid, hi);
    }
  }

  lemma {:induction false} FindCutAt(posts: seq<FeedItem>, lo: nat, cut: nat, hi: nat, start: nat, limit: Option<int>)
    requires lo <= cut < hi <= start <= |posts| && limit.Some?
    requires |Yields(posts, cut + 1, start)| < limit.value <= |Yields(posts, cut, start)|
    ensures FindCut(posts, lo, hi, start, limit) == Some(cut)
    decreases hi
  {
    if cut < hi - 1 {
      YieldsGrow(posts, cut + 1, hi - 1, start);
      FindCutAt(posts, lo, cut, hi - 1, start, limit);
    }
  }

  lemma {:induction false} FindNoCut(posts: seq<FeedItem>, lo: nat, hi: nat, start: nat, limit: Option<int>)
    requires hi <= start <= |posts|
    requires lo <= start && (limit.Some? ==> |Yields(posts, lo, start)| < limit.value)
    ensures FindCut(posts, lo, hi, start, limit) == None
    decreases hi
  {
    if limit.Some? && lo < hi {
      YieldsGrow(posts, lo, hi - 1, start);
      FindNoCut(posts, lo, hi - 1, start, limit);
    }
  }

  /** Where a scan from the stored row would be cut, from the feed above the mark and the limit alone. */
  function CutOf(s: State, mark: nat, limit: Option<int>): (cut: Option<nat>)
    requires ScanStart(s) <= |s.posts|
    ensures cut.Some? ==> limit.Some? && mark < cut.value < ScanStart(s)
  {
    FindCut(s.posts, mark + 1, ScanStart(s), ScanStart(s), limit)
  }

  /** A scan that is not stopped by the page cap or an error is cut exactly where this says. */
  lemma CutIsForeseen(s: State, mark: nat, pend: Option<nat>, r: ScanReport)
    requires Placed(s, mark, pend) && Reports(s, r) && (r.end.HighWater? || r.end.CandidateLimit?)
    ensures ScanStart(s) <= |s.posts|
    ensures CutOf(s, mark, r.limit) == if r.end.CandidateLimit? then Some(CutIndex(r.lo, r.end)) else None
    ensures r.end.CandidateLimit? ==> mark < CutIndex(r.lo, r.end) && s.posts[CutIndex(r.lo, r.end)].uri != ""
  {
    ScanStaysAbove(s, mark, pend, r);
    var start := ScanStart(s);
    if r.end.CandidateLimit? {
      var cut := CutIndex(r.lo, r.end);
      assert |Yields(s.posts, cut, start)| == |Yields(s.posts, cut + 1, start)| + s.posts[cut].candidates;
      FindCutAt(s.posts, mark + 1, cut, start, start, r.limit);
    } else {
      FindNoCut(s.posts, mark + 1, start, start, r.limit);
    }
  }

  /** The limit is not reached, or by the last candidate of an item with no post between it and the mark. */
  ghost predicate Reaches(s: State, mark: nat, limit: Option<int>)
    requires ScanStart(s) <= |s.posts|
  {
    match CutOf(s, mark, limit)
    case None => true
    case Some(cut) =>
      && |Yields(s.posts, cut, ScanStart(s))| == limit.value
      && forall i | mark < i < cut :: s.posts[i].uri == ""
  }

  /**
   A cut scan is recorded as complete, so the mark passes every post it had not reached. A scan
   that neither fails nor is capped misses nothing if and only if the limit reaches down to the
   old mark; what it misses is exactly what lies below the cut, and the cut item unless its last
   candidate was the limit.
   */
  lemma CutMissesIff(
    s: State, r: ScanReport, count: nat, error: string, base: nat, mark: nat, pend: Option<nat>)
    returns (mark': nat)
    requires Covered(s, base, mark, pend) && Exact(s, base, mark, pend)
    requires Reports(s, r) && (r.end.HighWater? || r.end.CandidateLimit?)
    ensures ScanStart(s) <= |s.posts| && (r.end.CandidateLimit? <==> CutOf(s, mark, r.limit).Some?)
    ensures var t, cut := Apply(s, Scan(r, count, error)), CutOf(s, mark, r.limit);
      && Settled(t, mark') && mark <= mark'
      && ((forall i: nat | mark < i <= mark' && s.posts[i].uri != "" :: t.examined[i] >= 1)
          <==> Reaches(s, mark, r.limit))
      && (forall i: nat | mark < i <= mark' && s.posts[i].uri != "" ::
            t.examined[i] == 0
            <==> cut.Some? && (i < cut.value
                               || (i == cut.value && |Yields(s.posts, i, ScanStart(s))| > r.limit.value)))
      && (cut.Some? ==> mark < cut.value <= mark')
  {
    ScanStaysAbove(s, mark, pend, r);
    CutIsForeseen(s, mark, pend, r);
    ExaminedAfter(s, r);
    var pend';
    mark', pend' := MarksAfter(s, mark, pend, r);
    hide FindCut, Yields;
    var t, cut := Apply(s, Scan(r, count, error)), CutOf(s, mark, r.limit);
    forall i: nat | mark < i <= mark' && s.posts[i].uri != ""
      ensures t.examined[i] == 0 <==> i < r.lo
    {
      assert s.examined[i] == Expected(s, mark, pend, i);
    }
  }

  lemma StepStaysAbove(s: State, step: Step, mark: nat, pend: Option<nat>)
    returns (mark': nat, pend': Option<nat>)
    requires Placed(s, mark, pend) && Enabled(s, step)
    ensures mark <= mark' && Placed(Apply(s, step), mark', pend')
    ensures forall i: nat | i <= mark :: Apply(s, step).examined[i] == s.examined[i]
  {
    mark', pend' := mark, pend;
    if !step.Arrive? {
      ScanStaysAbove(s, mark, pend, step.report);
      ExaminedAfter(s, step.report);
      if step.Scan? && !step.report.end.ApiError? {
        mark', pend' := MarksAfter(s, mark, pend, step.report);
      }
    }
  }

  /** Whatever happens later, cuts included, no scan goes below the mark again. */
  lemma {:induction false} NeverBelowTheMark(s: State, steps: seq<Step>, mark: nat, pend: Option<nat>)
    requires Placed(s, mark, pend) && Legal(s, steps)
    ensures forall i: nat | i <= mark :: Run(s, steps).examined[i] == s.examined[i]
    decreases |steps|
  {
    if steps != [] {
      var mark', pend' := StepStaysAbove(s, steps[0], mark, pend);
      NeverBelowTheMark(Apply(s, steps[0]), steps[1..], mark', pend');
    }
  }

  /** What a cut scan missed is missed for good. */
  lemma CutIsForGood(
    s: State, r: ScanReport, count: nat, error: string, base: nat, mark: nat, pend: Option<nat>,
    steps: seq<Step>, i: nat)
    requires Covered(s, base, mark, pend) && Exact(s, base, mark, pend)
    requires Reports(s, r) && r.end.CandidateLimit? && Legal(Apply(s, Scan(r, count, error)), steps)
    requires mark < i < r.lo && s.posts[i].uri != ""
    ensures Run(Apply(s, Scan(r, count, error)), steps).examined[i] == 0
  {
    var mark' := CutMissesIff(s, r, count, error, base, mark, pend);
    CutIsForeseen(s, mark, pend, r);
    NeverBelowTheMark(Apply(s, Scan(r, count, error)), steps, mark', None);
  }

  /** A settled feed "a" with the newer posts "b" and "c", and a scan whose limit falls on "c". */
  const CUT_START := State(
    [Item("a", 1), Item("b", 1), Item("c", 1)], ActorState("a", "", NoCursor, true, 0, None), multiset{})

  const CUT_SCAN := Scan(ScanReport(Some(1), 2, CandidateLimit(true), "c", NoCursor), 1, "")

  /** The mark moves to "c", and "b" is never examined, whatever follows. */
  lemma CutLosesAPost(steps: seq<Step>)
    requires Legal(Apply(CUT_START, CUT_SCAN), steps)
    ensures Settled(CUT_START, 0) && Enabled(CUT_START, CUT_SCAN)
    ensures Apply(CUT_START, CUT_SCAN).row.highWater == "c" && CUT_START.posts[1].uri == "b"
    ensures Run(Apply(CUT_START, CUT_SCAN), steps).examined[1] == 0
  {
    var r := CUT_SCAN.report;
    var posts := CUT_START.posts;
    assert FirstUri(posts, 2, 3, "") == FirstUri(posts, 2, 2, posts[2].uri);
    assert posts[0].uri == "a" && posts[1].uri == "b" && posts[2].uri == "c";
    assert Yields(posts, 3, 3) == [] && |Yields(posts, 2, 3)| == 1;
    assert Reports(CUT_START, r);
    CutIsForGood(CUT_START, r, 1, "", 0, 0, None, steps, 1);
  }
}
