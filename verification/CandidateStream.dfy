/**
 From a consumed candidate stream to a published candidate file: deduplication and batching of
 the stream, staged writing, commit and abort.
 */
module CandidateStream {
  import opened Wrappers

  /** A candidate's version: its id and the revision of its post. */
  datatype Key = Key(candidateId: string, postCid: Option<string>)

  datatype Candidate = Candidate(key: Key, body: string)

  /** One line of a file; a line without a readable version is kept but never compared. */
  datatype Line = Row(candidate: Candidate) | Unreadable(text: string)

  function KeysOf(xs: seq<Candidate>): set<Key> {
    set i | 0 <= i < |xs| :: xs[i].key
  }

  /** The first candidate of every version not in `seen`. */
  function Dedupe(xs: seq<Candidate>, seen: set<Key>): seq<Candidate> {
    if xs == [] then []
    else
      var rest := Dedupe(xs[1..], seen + {xs[0].key});
      if xs[0].key in seen then rest else [xs[0]] + rest
  }

  // ----- what deduplication means -----

  predicate IsFirst(xs: seq<Candidate>, seen: set<Key>, i: nat)
    requires i < |xs|
  {
    xs[i].key !in seen && forall j | 0 <= j < i :: xs[j].key != xs[i].key
  }

  /** `at` lists, in order, exactly the positions of the first occurrences. */
  ghost predicate FirstPositions(xs: seq<Candidate>, seen: set<Key>, at: seq<nat>) {
    && (forall k | 0 <= k < |at| :: at[k] < |xs| && IsFirst(xs, seen, at[k]))
    && (forall j, k | 0 <= j < k < |at| :: at[j] < at[k])
    && (forall i | 0 <= i < |xs| && IsFirst(xs, seen, i) :: i in at)
  }

  ghost function Positions(xs: seq<Candidate>, seen: set<Key>): seq<nat>
    decreases |xs|
  {
    if xs == [] then []
    else
      var front, last := xs[..|xs| - 1], |xs| - 1;
      Positions(front, seen) + if IsFirst(xs, seen, last) then [last] else []
  }

  lemma {:induction false} PositionsAreFirst(xs: seq<Candidate>, seen: set<Key>)
    ensures FirstPositions(xs, seen, Positions(xs, seen))
    decreases |xs|
  {
    if xs != [] {
      var front, last := xs[..|xs| - 1], |xs| - 1;
      PositionsAreFirst(front, seen);
      assert forall i | 0 <= i < last :: IsFirst(xs, seen, i) <==> IsFirst(front, seen, i);
      assert forall i | 0 <= i < |xs| && IsFirst(xs, seen, i) :: i < last || i == last;
    }
  }

  lemma {:induction false} DedupeConcat(xs: seq<Candidate>, ys: seq<Candidate>, seen: set<Key>)
    ensures Dedupe(xs + ys, seen) == Dedupe(xs, seen) + Dedupe(ys, seen + KeysOf(xs))
  {
    if xs == [] {
      assert xs + ys == ys && seen + KeysOf(xs) == seen;
    } else {
      assert (xs + ys)[1..] == xs[1..] + ys;
      DedupeConcat(xs[1..], ys, seen + {xs[0].key});
      KeysHead(xs);
      assert seen + {xs[0].key} + KeysOf(xs[1..]) == seen + KeysOf(xs);
    }
  }

  lemma KeysHead(xs: seq<Candidate>)
    requires xs != []
    ensures KeysOf(xs) == {xs[0].key} + KeysOf(xs[1..])
  {
    forall k | k in KeysOf(xs) ensures k in {xs[0].key} + KeysOf(xs[1..]) {
      var i :| 0 <= i < |xs| && xs[i].key == k;
      assert i > 0 ==> xs[1..][i - 1] == xs[i];
    }
  }

  lemma KeysConcat(xs: seq<Candidate>, ys: seq<Candidate>)
    ensures KeysOf(xs + ys) == KeysOf(xs) + KeysOf(ys)
  {
    forall k | k in KeysOf(ys) ensures k in KeysOf(xs + ys) {
      var i :| 0 <= i < |ys| && ys[i].key == k;
      assert (xs + ys)[|xs| + i] == ys[i];
    }
    forall k | k in KeysOf(xs) ensures k in KeysOf(xs + ys) {
      var i :| 0 <= i < |xs| && xs[i].key == k;
      assert (xs + ys)[i] == xs[i];
    }
  }

  /** The result is the stream read at exactly its first positions, in order. */
  lemma {:induction false} DedupeKeepsFirst(xs: seq<Candidate>, seen: set<Key>)
    ensures |Dedupe(xs, seen)| == |Positions(xs, seen)|
    ensures FirstPositions(xs, seen, Positions(xs, seen))
    ensures forall k | 0 <= k < |Positions(xs, seen)| ::
              Positions(xs, seen)[k] < |xs| && Dedupe(xs, seen)[k] == xs[Positions(xs, seen)[k]]
    decreases |xs|
  {
    PositionsAreFirst(xs, seen);
    if xs != [] {
      var front, last := xs[..|xs| - 1], xs[|xs| - 1];
      assert xs == front + [last];
      DedupeKeepsFirst(front, seen);
      DedupeConcat(front, [last], seen);
      assert last.key in KeysOf(front) <==> exists j | 0 <= j < |front| :: front[j].key == last.key;
      assert IsFirst(xs, seen, |front|) <==> last.key !in seen + KeysOf(front);
      assert Dedupe([last], seen + KeysOf(front)) == if last.key in seen + KeysOf(front) then [] else [last];
    }
  }

  lemma {:induction false} DedupeTwice(xs: seq<Candidate>, seen: set<Key>, other: set<Key>)
    requires other <= seen
    ensures Dedupe(Dedupe(xs, seen), other) == Dedupe(xs, seen)
    decreases |xs|
  {
    if xs != [] {
      var head, rest := xs[0], Dedupe(xs[1..], seen + {xs[0].key});
      if head.key in seen {
        assert seen + {head.key} == seen;
        DedupeTwice(xs[1..], seen, other);
      } else {
        assert ([head] + rest)[1..] == rest;
        DedupeTwice(xs[1..], seen + {head.key}, other + {head.key});
      }
    }
  }

  // ----- the candidate file -----

  /** `published` and `staged` are the two files; `seen` the versions written or found on opening. */
  datatype Store = Store(
    published: Option<seq<Line>>, staged: Option<seq<Line>>, append: bool, rowsWritten: nat, seen: set<Key>)

  function LinesOf(file: Option<seq<Line>>): seq<Line> {
    if file.Some? then file.value else []
  }

  function Rows(xs: seq<Candidate>): (lines: seq<Line>)
    ensures |lines| == |xs|
  {
    seq(|xs|, i requires 0 <= i < |xs| => Row(xs[i]))
  }

  function KeysIn(lines: seq<Line>): set<Key> {
    set i | 0 <= i < |lines| && lines[i].Row? :: lines[i].candidate.key
  }

  function Open(file: Option<seq<Line>>, append: bool): Store {
    Store(file, None, append, 0, if append then KeysIn(LinesOf(file)) else {})
  }

  function Appended(s: Store, xs: seq<Candidate>): Store {
    var rows := Dedupe(xs, s.seen);
    var t := s.(rowsWritten := s.rowsWritten + |rows|, seen := s.seen + KeysOf(xs));
    if s.append then t.(published := Some(LinesOf(s.published) + Rows(rows)))
    else t.(staged := Some(LinesOf(s.staged) + Rows(rows)))
  }

  function Aborted(s: Store): Store {
    if s.append then s else s.(staged := None)
  }

  function Committed(s: Store, allowEmpty: bool): (Store, bool) {
    if s.append then (s, true)
    else if s.rowsWritten == 0 && !allowEmpty then (Aborted(s), false)
    else (s.(published := Some(LinesOf(s.staged)), staged := None, append := true), true)
  }

  datatype Op = AppendMany(xs: seq<Candidate>) | Commit(allowEmpty: bool) | Abort

  function Apply(s: Store, op: Op): Store {
    match op
    case AppendMany(xs) => Appended(s, xs)
    case Commit(allowEmpty) => Committed(s, allowEmpty).0
    case Abort => Aborted(s)
  }

  function Exec(s: Store, ops: seq<Op>): Store {
    if ops == [] then s else Apply(Exec(s, ops[..|ops| - 1]), ops[|ops| - 1])
  }

  function AllAppended(ops: seq<Op>): seq<Candidate> {
    if ops == [] then []
    else AllAppended(ops[..|ops| - 1])
         + if ops[|ops| - 1].AppendMany? then ops[|ops| - 1].xs else []
  }

  /** What the operation throws away. */
  function DiscardedBy(s: Store, op: Op): seq<Line> {
    if !s.append && (op.Abort? || (op.Commit? && !Committed(s, op.allowEmpty).1)) then LinesOf(s.staged) else []
  }

  /** The rows that aborts threw away. */
  function Discarded(s: Store, ops: seq<Op>): seq<Line> {
    if ops == [] then []
    else Discarded(s, ops[..|ops| - 1]) + DiscardedBy(Exec(s, ops[..|ops| - 1]), ops[|ops| - 1])
  }

  /** The rows this store has written and not thrown away. */
  function Kept(s: Store): seq<Line> {
    LinesOf(if s.append then s.published else s.staged)
  }

  lemma RowsConcat(xs: seq<Candidate>, ys: seq<Candidate>)
    ensures Rows(xs + ys) == Rows(xs) + Rows(ys)
  {
  }

  lemma RowsNext(xs: seq<Candidate>, x: Candidate)
    ensures Rows(xs + [x]) == Rows(xs) + [Row(x)]
  {
  }

  /** The rows written so far are the discarded ones followed by the kept ones. */
  ghost predicate Conserves(file: Option<seq<Line>>, s: Store, gone: seq<Line>, all: seq<Candidate>) {
    && s.seen == KeysOf(all)
    && s.rowsWritten == |Dedupe(all, {})|
    && gone + Kept(s) == Rows(Dedupe(all, {}))
    && (s.append ==> s.published.Some? && s.staged == None)
    && (!s.append ==> s.published == file)
  }

  lemma AppendConserves(file: Option<seq<Line>>, s: Store, gone: seq<Line>, all: seq<Candidate>, xs: seq<Candidate>)
    requires Conserves(file, s, gone, all)
    ensures Conserves(file, Appended(s, xs), gone, all + xs)
  {
    var rows := Dedupe(xs, s.seen);
    KeysConcat(all, xs);
    DedupeConcat(all, xs, {});
    assert {} + KeysOf(all) == s.seen;
    RowsConcat(Dedupe(all, {}), rows);
    assert Kept(Appended(s, xs)) == Kept(s) + Rows(rows);
    assert gone + (Kept(s) + Rows(rows)) == (gone + Kept(s)) + Rows(rows);
  }

  lemma EndConserves(file: Option<seq<Line>>, s: Store, gone: seq<Line>, all: seq<Candidate>, op: Op)
    requires Conserves(file, s, gone, all) && !op.AppendMany?
    ensures Conserves(file, Apply(s, op), gone + DiscardedBy(s, op), all)
  {
    assert gone + [] == gone;
    assert (gone + LinesOf(s.staged)) + [] == gone + LinesOf(s.staged);
  }

  /** No row is lost or written twice, and only an abort with rows staged takes any away. */
  lemma {:induction false} ReplacementConserves(file: Option<seq<Line>>, ops: seq<Op>)
    ensures Conserves(file, Exec(Open(file, false), ops), Discarded(Open(file, false), ops), AllAppended(ops))
    decreases |ops|
  {
    var start := Open(file, false);
    if ops == [] {
      assert KeysOf([]) == {};
    } else {
      var front, op := ops[..|ops| - 1], ops[|ops| - 1];
      var s, gone, all := Exec(start, front), Discarded(start, front), AllAppended(front);
      ReplacementConserves(file, front);
      if op.AppendMany? {
        AppendConserves(file, s, gone, all, op.xs);
        assert gone + [] == gone;
      } else {
        EndConserves(file, s, gone, all, op);
        assert all + [] == all;
      }
    }
  }

  /** A row is appended, the staging aborted, and the row appended again: the published file is empty. */
  lemma AbortLosesARow(file: Option<seq<Line>>, c: Candidate)
    ensures var ops := [Op.AppendMany([c])] + [Abort] + [Op.AppendMany([c])] + [Commit(false)];
            && Exec(Open(file, false), ops).published == Some([])
            && AllAppended(ops) == [c, c] && Dedupe([c, c], {}) == [c]
  {
    var s, a, b := Open(file, false), Op.AppendMany([c]), Commit(false);
    LostOnTheWay(s, c);
    assert Exec(s, []) == s && AllAppended([]) == [];
    hide Appended, Aborted, Committed, Dedupe;
    assert [] + [a] == [a] && [] + [c] == [c] && [c] + [] == [c] && [c] + [c] == [c, c];
    ExecNext(s, [], a);
    ExecNext(s, [a], Abort);
    ExecNext(s, [a] + [Abort], a);
    ExecNext(s, [a] + [Abort] + [a], b);
    AllAppendedNext([], a);
    AllAppendedNext([a], Abort);
    AllAppendedNext([a] + [Abort], a);
    AllAppendedNext([a] + [Abort] + [a], b);
  }

  lemma LostOnTheWay(s: Store, c: Candidate)
    requires !s.append && s.staged == None && s.seen == {} && s.rowsWritten == 0
    ensures Committed(Appended(Aborted(Appended(s, [c])), [c]), false).0.published == Some([])
    ensures Dedupe([c, c], {}) == [c]
  {
    assert [c, c][1..] == [c] && [c][1..] == [];
    KeysHead([c]);
    assert KeysOf([]) == {} && KeysOf([c]) == {c.key};
    assert Dedupe([c], {}) == [c] && Dedupe([c], {c.key}) == [];
    assert Rows([]) == [] && {} + {c.key} == {c.key};
  }

  lemma AllAppendedNext(ops: seq<Op>, op: Op)
    ensures AllAppended(ops + [op]) == AllAppended(ops) + if op.AppendMany? then op.xs else []
  {
    assert (ops + [op])[..|ops|] == ops;
  }

  /** A commit without `allowEmpty` publishes exactly when a row was ever written. */
  lemma CommitPublishesIff(file: Option<seq<Line>>, ops: seq<Op>, allowEmpty: bool)
    ensures Committed(Exec(Open(file, false), ops), allowEmpty).1
            <==> Exec(Open(file, false), ops).append || allowEmpty || AllAppended(ops) != []
  {
    ReplacementConserves(file, ops);
    var all := AllAppended(ops);
    if all != [] {
      DedupeKeepsFirst(all, {});
      assert IsFirst(all, {}, 0);
      assert Exec(Open(file, false), ops).rowsWritten == |Rows(Dedupe(all, {}))|;
    }
  }

  // ----- when a published file is complete, read off the operations -----

  /** After the operations `front`, the next one is a commit that succeeds if none has before. */
  predicate CommitsNow(front: seq<Op>, op: Op) {
    op.Commit? && (op.allowEmpty || AllAppended(front) != [])
  }

  predicate Succeeds(ops: seq<Op>, k: nat)
    requires k < |ops|
  {
    CommitsNow(ops[..k], ops[k])
  }

  /** No commit has succeeded. */
  predicate Staging(ops: seq<Op>) {
    forall k | 0 <= k < |ops| :: !Succeeds(ops, k)
  }

  /** The operations up to the last abort. */
  function UpToAbort(ops: seq<Op>): seq<Op> {
    if ops == [] || ops[|ops| - 1].Abort? then ops else UpToAbort(ops[..|ops| - 1])
  }

  /** Since the last abort a version was appended that had not been appended before it. */
  predicate AddsSinceAbort(ops: seq<Op>) {
    !(KeysOf(AllAppended(ops)) <= KeysOf(AllAppended(UpToAbort(ops))))
  }

  /** The next operation is an abort, before any successful commit, with new versions since the last one. */
  predicate DropsNow(front: seq<Op>, op: Op) {
    op.Abort? && Staging(front) && AddsSinceAbort(front)
  }

  predicate Drops(ops: seq<Op>, k: nat)
    requires k < |ops|
  {
    DropsNow(ops[..k], ops[k])
  }

  lemma StagingNext(ops: seq<Op>)
    requires ops != []
    ensures var front := ops[..|ops| - 1];
            Staging(ops) <==> Staging(front) && !CommitsNow(front, ops[|ops| - 1])
  {
    var front, last := ops[..|ops| - 1], |ops| - 1;
    assert forall k | 0 <= k < last :: ops[..k] == front[..k];
    assert forall k | 0 <= k < last :: Succeeds(ops, k) <==> Succeeds(front, k);
    assert Succeeds(ops, last) <==> CommitsNow(front, ops[last]);
  }

  lemma DropsNext(ops: seq<Op>)
    requires ops != []
    ensures var front := ops[..|ops| - 1];
            (exists k | 0 <= k < |ops| :: Drops(ops, k))
            <==> (exists k | 0 <= k < |front| :: Drops(front, k)) || DropsNow(front, ops[|ops| - 1])
  {
    var front, last := ops[..|ops| - 1], |ops| - 1;
    assert forall k | 0 <= k < last :: ops[..k] == front[..k];
    assert Drops(ops, last) <==> DropsNow(front, ops[last]);
    hide DropsNow;
    assert forall k | 0 <= k < last :: Drops(ops, k) <==> Drops(front, k);
  }

  lemma {:induction false} StagingIff(file: Option<seq<Line>>, ops: seq<Op>)
    ensures Exec(Open(file, false), ops).append <==> !Staging(ops)
    decreases |ops|
  {
    if ops != [] {
      var front, op := ops[..|ops| - 1], ops[|ops| - 1];
      StagingIff(file, front);
      StagingNext(ops);
      if op.Commit? {
        CommitPublishesIff(file, front, op.allowEmpty);
      }
      hide Staging;
    }
  }

  lemma {:induction false} NothingNew(xs: seq<Candidate>, seen: set<Key>)
    ensures Dedupe(xs, seen) == [] <==> KeysOf(xs) <= seen
  {
    if xs != [] {
      KeysHead(xs);
      NothingNew(xs[1..], seen + {xs[0].key});
      assert xs[0].key in seen ==> seen + {xs[0].key} == seen;
    }
  }

  lemma {:induction false} UpToAbortKeys(ops: seq<Op>)
    ensures KeysOf(AllAppended(UpToAbort(ops))) <= KeysOf(AllAppended(ops))
    decreases |ops|
  {
    if ops != [] && !ops[|ops| - 1].Abort? {
      UpToAbortKeys(ops[..|ops| - 1]);
      if ops[|ops| - 1].AppendMany? {
        KeysConcat(AllAppended(ops[..|ops| - 1]), ops[|ops| - 1].xs);
      } else {
        assert AllAppended(ops) == AllAppended(ops[..|ops| - 1]);
      }
    }
  }

  /** Rows are staged exactly when new versions were appended since the last abort. */
  lemma {:induction false} StagedIff(file: Option<seq<Line>>, ops: seq<Op>)
    requires Staging(ops)
    ensures LinesOf(Exec(Open(file, false), ops).staged) != [] <==> AddsSinceAbort(ops)
    decreases |ops|
  {
    if ops != [] {
      var front, op := ops[..|ops| - 1], ops[|ops| - 1];
      StagingNext(ops);
      StagedIff(file, front);
      StagingIff(file, front);
      ReplacementConserves(file, front);
      hide Staging, Discarded;
      if op.AppendMany? {
        UpToAbortKeys(front);
        StagedAfterAppend(Exec(Open(file, false), front), front, op.xs);
      } else if op.Commit? {
        assert AllAppended(front) == [] && AllAppended(ops) == [];
      }
    }
  }

  lemma StagedAfterAppend(s: Store, front: seq<Op>, xs: seq<Candidate>)
    requires !s.append && s.seen == KeysOf(AllAppended(front))
    requires LinesOf(s.staged) != [] <==> AddsSinceAbort(front)
    requires KeysOf(AllAppended(UpToAbort(front))) <= s.seen
    ensures LinesOf(Appended(s, xs).staged) != []
       <==> !(KeysOf(AllAppended(front) + xs) <= KeysOf(AllAppended(UpToAbort(front))))
  {
    NothingNew(xs, s.seen);
    KeysConcat(AllAppended(front), xs);
  }

  lemma {:induction false} DiscardedIff(file: Option<seq<Line>>, ops: seq<Op>)
    ensures Discarded(Open(file, false), ops) != [] <==> exists k | 0 <= k < |ops| :: Drops(ops, k)
    decreases |ops|
  {
    if ops != [] {
      var front, op := ops[..|ops| - 1], ops[|ops| - 1];
      DiscardedIff(file, front);
      DropsNext(ops);
      LastDiscards(file, front, op);
      hide DiscardedBy, Drops, DropsNow, Exec;
    }
  }

  /** A failing commit has nothing to throw away. */
  lemma LastDiscards(file: Option<seq<Line>>, front: seq<Op>, op: Op)
    ensures DiscardedBy(Exec(Open(file, false), front), op) != [] <==> DropsNow(front, op)
  {
    StagingIff(file, front);
    ReplacementConserves(file, front);
    if Staging(front) {
      StagedIff(file, front);
    }
  }

  /**
   Replacement mode: the published file does not change before the first commit that succeeds,
   and from then on it holds exactly the deduplicated appended rows, in order, if and only if no
   abort came before that commit with new versions appended since the abort before it.
   */
  lemma ReplacementPublishes(file: Option<seq<Line>>, ops: seq<Op>)
    ensures var s := Exec(Open(file, false), ops);
      && (!s.append ==> s.published == file)
      && (s.append ==>
            (s.published == Some(Rows(Dedupe(AllAppended(ops), {})))
             <==> forall k | 0 <= k < |ops| :: !Drops(ops, k)))
      && (s.append <==> !Staging(ops))
  {
    ReplacementConserves(file, ops);
    StagingIff(file, ops);
    DiscardedIff(file, ops);
    var s, gone := Exec(Open(file, false), ops), Discarded(Open(file, false), ops);
    var rows := Rows(Dedupe(AllAppended(ops), {}));
    if s.append {
      assert Kept(s) == s.published.value && gone + Kept(s) == rows;
      assert Kept(s) == rows ==> |gone| == 0;
      assert gone == [] ==> gone + Kept(s) == Kept(s);
    }
  }

  /** The file is the old one followed by the rows it did not yet have. */
  ghost predicate ExtendedBy(had: seq<Line>, s: Store, all: seq<Candidate>) {
    && s.append && s.staged == None
    && s.seen == KeysIn(had) + KeysOf(all)
    && LinesOf(s.published) == had + Rows(Dedupe(all, KeysIn(had)))
  }

  lemma AppendMore(had: seq<Line>, s: Store, all: seq<Candidate>, xs: seq<Candidate>)
    requires ExtendedBy(had, s, all)
    ensures ExtendedBy(had, Appended(s, xs), all + xs)
  {
    var rows := Dedupe(xs, s.seen);
    KeysConcat(all, xs);
    DedupeConcat(all, xs, KeysIn(had));
    RowsConcat(Dedupe(all, KeysIn(had)), rows);
    assert s.seen + KeysOf(xs) == KeysIn(had) + KeysOf(all + xs);
    hide KeysIn, KeysOf, Dedupe, Rows;
    assert LinesOf(Appended(s, xs).published) == LinesOf(s.published) + Rows(rows);
  }

  /** Append mode: the old file stays as a prefix, followed by the rows it did not yet have. */
  lemma {:induction false} AppendExtends(file: Option<seq<Line>>, ops: seq<Op>)
    ensures ExtendedBy(LinesOf(file), Exec(Open(file, true), ops), AllAppended(ops))
    decreases |ops|
  {
    if ops == [] {
      assert KeysIn(LinesOf(file)) + KeysOf([]) == KeysIn(LinesOf(file));
    } else {
      var front, op := ops[..|ops| - 1], ops[|ops| - 1];
      AppendExtends(file, front);
      if op.AppendMany? {
        AppendMore(LinesOf(file), Exec(Open(file, true), front), AllAppended(front), op.xs);
      } else {
        assert AllAppended(ops) == AllAppended(front);
      }
    }
  }

  class JSONLCandidateStore {
    var published: Option<seq<Line>>
    var staged: Option<seq<Line>>
    var append: bool
    var rowsWritten: nat
    var seenVersions: set<Key>

    function View(): Store
      reads this
    {
      Store(published, staged, append, rowsWritten, seenVersions)
    }

    constructor (file: Option<seq<Line>>, append: bool)
      ensures View() == Open(file, append)
    {
      published, staged, this.append, rowsWritten, seenVersions := file, None, append, 0, {};
      new;
      if append && file.Some? {
        var lines := file.value;
        for i := 0 to |lines|
          invariant seenVersions == KeysIn(lines[..i])
          invariant published == file && staged == None && this.append == append && rowsWritten == 0
        {
          KeysInNext(lines, i);
          if lines[i].Row? {
            seenVersions := seenVersions + {lines[i].candidate.key};
          }
        }
        assert lines[..|lines|] == lines;
      }
    }

    method AppendMany(candidates: seq<Candidate>) returns (count: nat)
      modifies this
      ensures View() == Apply(old(View()), Op.AppendMany(candidates))
      ensures count == |Dedupe(candidates, old(seenVersions))|
    {
      var lines := LinesOf(if append then published else staged);
      count := 0;
      ghost var rows: seq<Candidate> := [];
      assert rows == Dedupe(candidates[..0], seenVersions) && seenVersions == seenVersions + KeysOf(candidates[..0]);
      assert lines == lines + Rows(rows) && candidates[..|candidates|] == candidates;
      hide Dedupe, KeysOf, Rows;
      for i := 0 to |candidates|
        invariant rows == Dedupe(candidates[..i], old(seenVersions)) && count == |rows|
        invariant lines == LinesOf(if append then published else staged) + Rows(rows)
        invariant seenVersions == old(seenVersions) + KeysOf(candidates[..i])
        invariant View().(seen := old(seenVersions)) == old(View())
      {
        DedupeNext(candidates, i, old(seenVersions));
        if candidates[i].key !in seenVersions {
          RowsNext(rows, candidates[i]);
          lines := lines + [Row(candidates[i])];
          seenVersions := seenVersions + {candidates[i].key};
          count := count + 1;
          rows := rows + [candidates[i]];
        }
      }
      if append {
        published := Some(lines);
      } else {
        staged := Some(lines);
      }
      rowsWritten := rowsWritten + count;
    }

    method Commit(allowEmpty: bool) returns (ok: bool)
      modifies this
      ensures (View(), ok) == Committed(old(View()), allowEmpty)
    {
      if append {
        return true;
      }
      if rowsWritten == 0 && !allowEmpty {
        Abort();
        return false;
      }
      if staged.None? {
        staged := Some([]);
      }
      published, staged := staged, None;
      append := true;
      return true;
    }

    method Abort()
      modifies this
      ensures View() == Apply(old(View()), Op.Abort)
    {
      if !append {
        staged := None;
      }
    }
  }

  lemma KeysInNext(lines: seq<Line>, i: nat)
    requires i < |lines|
    ensures KeysIn(lines[..i + 1])
            == KeysIn(lines[..i]) + if lines[i].Row? then {lines[i].candidate.key} else {}
  {
    var before, after := lines[..i], lines[..i + 1];
    assert forall k | 0 <= k < i :: before[k] == after[k];
    assert after[i] == lines[i];
  }

  lemma DedupeNext(xs: seq<Candidate>, i: nat, seen: set<Key>)
    requires i < |xs|
    ensures Dedupe(xs[..i + 1], seen)
            == Dedupe(xs[..i], seen) + if xs[i].key in seen + KeysOf(xs[..i]) then [] else [xs[i]]
    ensures KeysOf(xs[..i + 1]) == KeysOf(xs[..i]) + {xs[i].key}
  {
    assert xs[..i + 1] == xs[..i] + [xs[i]];
    DedupeConcat(xs[..i], [xs[i]], seen);
    KeysConcat(xs[..i], [xs[i]]);
    assert KeysOf([xs[i]]) == {xs[i].key};
    assert Dedupe([xs[i]], seen + KeysOf(xs[..i])) == if xs[i].key in seen + KeysOf(xs[..i]) then [] else [xs[i]];
  }

  // ----- processing a stream -----

  function Concat(batches: seq<seq<Candidate>>): seq<Candidate> {
    if batches == [] then [] else Concat(batches[..|batches| - 1]) + batches[|batches| - 1]
  }

  /** Full batches, and a shorter one at most at the end. */
  predicate WellBatched(batches: seq<seq<Candidate>>, size: nat) {
    forall k | 0 <= k < |batches| ::
      0 < |batches[k]| <= size && (k < |batches| - 1 ==> |batches[k]| == size)
  }

  function Appends(batches: seq<seq<Candidate>>): seq<Op> {
    seq(|batches|, k requires 0 <= k < |batches| => Op.AppendMany(batches[k]))
  }

  lemma {:induction false} AppendsAll(batches: seq<seq<Candidate>>, op: Op)
    requires !op.AppendMany?
    ensures AllAppended(Appends(batches)) == Concat(batches)
    ensures AllAppended(Appends(batches) + [op]) == Concat(batches)
    decreases |batches|
  {
    var ops := Appends(batches) + [op];
    assert ops[..|ops| - 1] == Appends(batches);
    if batches != [] {
      var front := batches[..|batches| - 1];
      AppendsAll(front, op);
      assert Appends(batches)[..|batches| - 1] == Appends(front);
    }
  }

  lemma ExecNext(s: Store, ops: seq<Op>, op: Op)
    ensures Exec(s, ops + [op]) == Apply(Exec(s, ops), op)
  {
    assert (ops + [op])[..|ops|] == ops;
  }

  /** What is true after `done` has been consumed and `batches` processed, with `batch` collected. */
  ghost predicate Streamed(
    done: seq<Candidate>, skipKeys: set<Key>, keys: set<Key>, skipped: nat,
    batches: seq<seq<Candidate>>, batch: seq<Candidate>)
  {
    && Concat(batches) + batch == Dedupe(done, skipKeys)
    && keys == skipKeys + KeysOf(done)
    && skipped + |Concat(batches)| + |batch| == |done|
  }

  predicate AllFull(batches: seq<seq<Candidate>>, size: nat) {
    forall k | 0 <= k < |batches| :: |batches[k]| == size
  }

  lemma TakeNext(
    source: seq<Candidate>, i: nat, skipKeys: set<Key>, keys: set<Key>, skipped: nat,
    batches: seq<seq<Candidate>>, batch: seq<Candidate>)
    requires i < |source| && Streamed(source[..i], skipKeys, keys, skipped, batches, batch)
    ensures source[i].key in keys ==> Streamed(source[..i + 1], skipKeys, keys, skipped + 1, batches, batch)
    ensures source[i].key !in keys ==>
      Streamed(source[..i + 1], skipKeys, keys + {source[i].key}, skipped, batches, batch + [source[i]])
  {
    var key := source[i].key;
    DedupeNext(source, i, skipKeys);
    assert skipKeys + KeysOf(source[..i + 1]) == keys + {key};
    assert key in keys ==> keys + {key} == keys;
    assert Concat(batches) + (batch + [source[i]]) == (Concat(batches) + batch) + [source[i]];
  }

  lemma HandOn(
    done: seq<Candidate>, skipKeys: set<Key>, keys: set<Key>, skipped: nat,
    batches: seq<seq<Candidate>>, batch: seq<Candidate>, size: nat)
    requires Streamed(done, skipKeys, keys, skipped, batches, batch)
    requires AllFull(batches, size) && 0 < |batch| <= size
    ensures Streamed(done, skipKeys, keys, skipped, batches + [batch], [])
    ensures WellBatched(batches + [batch], size)
    ensures |batch| == size ==> AllFull(batches + [batch], size)
  {
    var all := batches + [batch];
    assert all[..|all| - 1] == batches;
    assert Concat(all) + [] == Concat(all);
  }

  datatype End = Returned | SourceRaised | ProcessingRaised | SourceAndProcessingRaised

  class BlueskyArtworkPipeline {
    const batchSize: nat
    const candidateStore: JSONLCandidateStore

    constructor (batchSize: nat, candidateStore: JSONLCandidateStore)
      ensures this.batchSize == batchSize && this.candidateStore == candidateStore
    {
      this.batchSize, this.candidateStore := batchSize, candidateStore;
    }

    /** Records the batch, then classifies, routes and stores it, which may raise. */
    method ProcessCandidates(batch: seq<Candidate>, ghost start: Store, ghost batches: seq<seq<Candidate>>)
      returns (ok: bool)
      requires candidateStore.View() == Exec(start, Appends(batches))
      modifies candidateStore
      ensures candidateStore.View() == Exec(start, Appends(batches + [batch]))
    {
      var count := candidateStore.AppendMany(batch);
      assert Appends(batches + [batch]) == Appends(batches) + [Op.AppendMany(batch)];
      ExecNext(start, Appends(batches), Op.AppendMany(batch));
      var worked: bool := *;
      ok := worked;
    }

    /**
     `source` is what the stream would yield before it ends or raises. The batches handed to
     processing, a failing one included, are always exactly the first occurrences of what was
     consumed; the file is committed unless processing raised after the source did.
     */
    method ProcessStream(source: seq<Candidate>, sourceRaises: bool, skipKeys: set<Key>)
      returns (end: End, consumed: nat, keys: set<Key>, skipped: nat, ghost batches: seq<seq<Candidate>>)
      requires batchSize > 0
      modifies candidateStore
      ensures consumed <= |source|
      ensures end != ProcessingRaised ==> consumed == |source| && sourceRaises == !end.Returned?
      ensures Concat(batches) == Dedupe(source[..consumed], skipKeys)
      ensures Streamed(source[..consumed], skipKeys, keys, skipped, batches, [])
      ensures WellBatched(batches, batchSize)
      ensures candidateStore.View() == Exec(old(candidateStore.View()), Appends(batches)
        + if end.SourceAndProcessingRaised? then [] else [Op.Commit(end.Returned?)])
    {
      end, consumed, keys, skipped, batches := Returned, 0, skipKeys, 0, [];
      ghost var start := candidateStore.View();
      var batch: seq<Candidate> := [];
      assert skipKeys + KeysOf([]) == skipKeys;
      assert Exec(start, Appends([])) == start;
      while consumed < |source|
        invariant consumed <= |source|
        invariant Streamed(source[..consumed], skipKeys, keys, skipped, batches, batch)
        invariant AllFull(batches, batchSize) && |batch| < batchSize
        invariant candidateStore.View() == Exec(start, Appends(batches))
      {
        var candidate := source[consumed];
        TakeNext(source, consumed, skipKeys, keys, skipped, batches, batch);
        consumed := consumed + 1;
        if candidate.key in keys {
          skipped := skipped + 1;
          continue;
        }
        keys := keys + {candidate.key};
        batch := batch + [candidate];
        if |batch| == batchSize {
          var ok := ProcessCandidates(batch, start, batches);
          HandOn(source[..consumed], skipKeys, keys, skipped, batches, batch, batchSize);
          batches, batch := batches + [batch], [];
          if !ok {
            Finish(start, batches, false);
            end := ProcessingRaised;
            return;
          }
        }
      }
      var ok := true;
      if batch != [] {
        ok := ProcessCandidates(batch, start, batches);
        HandOn(source[..consumed], skipKeys, keys, skipped, batches, batch, batchSize);
        batches, batch := batches + [batch], [];
      }
      if sourceRaises && !ok {
        assert Appends(batches) + [] == Appends(batches);
        assert Concat(batches) + [] == Concat(batches);
        end := SourceAndProcessingRaised;
        return;
      }
      end := if sourceRaises then SourceRaised else if ok then Returned else ProcessingRaised;
      Finish(start, batches, end.Returned?);
    }

    method Finish(ghost start: Store, ghost batches: seq<seq<Candidate>>, allowEmpty: bool)
      requires candidateStore.View() == Exec(start, Appends(batches))
      modifies candidateStore
      ensures candidateStore.View() == Exec(start, Appends(batches) + [Op.Commit(allowEmpty)])
    {
      var published := candidateStore.Commit(allowEmpty);
      ExecNext(start, Appends(batches), Op.Commit(allowEmpty));
    }
  }

  /**
   A stream processed into a fresh replacement file: once the stream ends, or its source raises
   after something was handed on, the file is exactly the first occurrences of what was consumed.
   */
  lemma StreamIsPublished(
    file: Option<seq<Line>>, consumed: seq<Candidate>, skipKeys: set<Key>,
    batches: seq<seq<Candidate>>, allowEmpty: bool)
    requires Concat(batches) == Dedupe(consumed, skipKeys)
    ensures var s := Exec(Open(file, false), Appends(batches) + [Op.Commit(allowEmpty)]);
      s.published == if allowEmpty || Dedupe(consumed, skipKeys) != []
                     then Some(Rows(Dedupe(consumed, skipKeys))) else file
  {
    var start, ops, commit := Open(file, false), Appends(batches), Op.Commit(allowEmpty);
    AppendsAll(batches, commit);
    ReplacementConserves(file, ops);
    NothingCommitted(file, batches);
    ExecNext(start, ops, commit);
    DedupeTwice(consumed, skipKeys, {});
    CommitOf(file, Exec(start, ops), Concat(batches), allowEmpty);
  }

  lemma CommitOf(file: Option<seq<Line>>, s: Store, all: seq<Candidate>, allowEmpty: bool)
    requires Conserves(file, s, [], all) && !s.append
    ensures Committed(s, allowEmpty).0.published
            == if allowEmpty || Dedupe(all, {}) != [] then Some(Rows(Dedupe(all, {}))) else file
  {
    assert [] + Kept(s) == Kept(s);
  }

  lemma {:induction false} NothingCommitted(file: Option<seq<Line>>, batches: seq<seq<Candidate>>)
    ensures !Exec(Open(file, false), Appends(batches)).append
    ensures Discarded(Open(file, false), Appends(batches)) == []
    decreases |batches|
  {
    if batches != [] {
      assert Appends(batches)[..|batches| - 1] == Appends(batches[..|batches| - 1]);
      NothingCommitted(file, batches[..|batches| - 1]);
    }
  }
}
