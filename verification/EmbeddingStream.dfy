/**
 Keyset streaming of the artworks that need an embedding, over a table that the consumer
 changes between pages: embedded rows leave the pending set, failed rows stay in it.
 */
module EmbeddingStream {
  import opened Wrappers

  type ArtworkId = string
  type Bundle = string

  datatype Artwork = Artwork(validated: bool, processedPath: Option<string>)

  // ----- the key order -----

  /** Strict lexicographic order; the empty string comes first. */
  predicate Less(a: ArtworkId, b: ArtworkId) {
    b != [] && (a == [] || a[0] < b[0] || (a[0] == b[0] && Less(a[1..], b[1..])))
  }

  lemma {:induction false} LessTransitive(a: ArtworkId, b: ArtworkId, c: ArtworkId)
    requires Less(a, b) && Less(b, c)
    ensures Less(a, c)
  {
    if a != [] && a[0] == b[0] && b[0] == c[0] {
      LessTransitive(a[1..], b[1..], c[1..]);
    }
  }

  lemma {:induction false} LessTotal(a: ArtworkId, b: ArtworkId)
    ensures Less(a, b) || Less(b, a) || a == b
    ensures !(Less(a, b) && Less(b, a)) && !Less(a, a)
  {
    if a != [] {
      LessTotal(a[1..], a[1..]);
    }
    if a != [] && b != [] && a[0] == b[0] {
      LessTotal(a[1..], b[1..]);
      if a[1..] == b[1..] {
        assert a == [a[0]] + a[1..] && b == [b[0]] + b[1..];
      }
    }
  }

  predicate Increasing(ids: seq<ArtworkId>) {
    forall i, j | 0 <= i < j < |ids| :: Less(ids[i], ids[j])
  }

  /** The first `limit` ids of `wanted` after `last`, in order. */
  ghost predicate IsPage(page: seq<ArtworkId>, wanted: set<ArtworkId>, last: ArtworkId, limit: nat) {
    && Increasing(page) && |page| <= limit
    && (forall i | 0 <= i < |page| :: page[i] in wanted && Less(last, page[i]))
    && (forall id | id in wanted && Less(last, id) && id !in page ::
          |page| == limit && forall i | 0 <= i < |page| :: Less(page[i], id))
  }

  function FirstOf(ids: seq<ArtworkId>, k: nat): set<ArtworkId>
    requires k <= |ids|
  {
    set i | 0 <= i < k :: ids[i]
  }

  lemma FirstOfNext(ids: seq<ArtworkId>, k: nat)
    requires Increasing(ids) && k < |ids|
    ensures ids[k] !in FirstOf(ids, k) && FirstOf(ids, k + 1) == FirstOf(ids, k) + {ids[k]}
  {
    forall i | 0 <= i < k ensures ids[i] != ids[k] {
      LessTotal(ids[i], ids[k]);
      LessTotal(ids[k], ids[k]);
    }
  }

  lemma FirstOfAll(ids: seq<ArtworkId>)
    ensures forall id :: id in FirstOf(ids, |ids|) <==> id in ids
  {
  }

  method Smallest(ids: set<ArtworkId>) returns (least: ArtworkId)
    requires ids != {}
    ensures least in ids && forall id | id in ids && id != least :: Less(least, id)
  {
    least :| least in ids;
    var rest := ids - {least};
    while rest != {}
      invariant least in ids && rest <= ids && least !in rest
      invariant forall id | id in ids - rest && id != least :: Less(least, id)
      decreases rest
    {
      var id :| id in rest;
      LessTotal(least, id);
      if Less(id, least) {
        forall other | other in ids - rest && other != least ensures Less(id, other) {
          LessTransitive(id, least, other);
        }
        least := id;
      }
      rest := rest - {id};
    }
  }

  /** Selects the page; the query engine's part. */
  method SelectPage(wanted: set<ArtworkId>, last: ArtworkId, limit: nat) returns (page: seq<ArtworkId>)
    ensures IsPage(page, wanted, last, limit)
  {
    page := [];
    var rest := set id | id in wanted && Less(last, id);
    while rest != {} && |page| < limit
      invariant Increasing(page) && |page| <= limit
      invariant forall i | 0 <= i < |page| :: page[i] in wanted && Less(last, page[i])
      invariant forall i, id | 0 <= i < |page| && id in rest :: Less(page[i], id)
      invariant forall id | id in wanted && Less(last, id) :: id in page || id in rest
      invariant forall id | id in rest :: id in wanted && Less(last, id)
      decreases rest
    {
      var least := Smallest(rest);
      page := page + [least];
      rest := rest - {least};
    }
  }

  /** The rows of a page whose processed file exists. */
  function Present(rows: seq<ArtworkId>, files: set<ArtworkId>): seq<ArtworkId> {
    if rows == [] then []
    else
      var last := rows[|rows| - 1];
      Present(rows[..|rows| - 1], files) + if last in files then [last] else []
  }

  /** The write of item `at` raises, after the row was stored if `stored`: the log entry that follows can fail too. */
  datatype Failure = Failure(at: nat, stored: bool)

  /** What a page meets: whether the model answers, and which write fails, if one does. */
  datatype Answer = Answer(modelOk: bool, failure: Option<Failure>)

  /**
   What becomes of a page: its rows without a processed file and those with one, whether the model
   answered for these, how many of them were counted as processed and how many stored.
   */
  datatype Batch = Batch(missing: nat, present: nat, modelOk: bool, written: nat, stored: nat)
  {
    ghost predicate Valid() {
      && written <= stored <= present && stored <= written + 1
      && (!modelOk ==> stored == 0) && (written < stored ==> WriteFailed())
    }

    function Rows(): nat {
      missing + present
    }

    predicate WriteFailed() {
      modelOk && written < present
    }

    /** A missing file is one error; a failure of the model or of a write is one for every other row. */
    function Errors(): nat {
      missing + if WriteFailed() || !modelOk then present else 0
    }
  }

  /** The files and answers determine what becomes of a page. */
  function BatchOf(rows: seq<ArtworkId>, files: set<ArtworkId>, a: Answer): (b: Batch)
    ensures b.Rows() == |rows| && b.present == |Present(rows, files)| && b.Valid()
  {
    PresentCount(rows, files);
    var present := |Present(rows, files)|;
    if !a.modelOk && present > 0 then Batch(|rows| - present, present, false, 0, 0)
    else
      match a.failure
      case Some(f) =>
        if f.at < present
        then Batch(|rows| - present, present, true, f.at, if f.stored then f.at + 1 else f.at)
        else Batch(|rows| - present, present, true, present, present)
      case None => Batch(|rows| - present, present, true, present, present)
  }

  /** The rows of a page that get their embedding. */
  function StoredOf(rows: seq<ArtworkId>, files: set<ArtworkId>, a: Answer): set<ArtworkId> {
    FirstOf(Present(rows, files), BatchOf(rows, files, a).stored)
  }

  lemma {:induction false} PresentCount(rows: seq<ArtworkId>, files: set<ArtworkId>)
    ensures |Present(rows, files)| <= |rows|
  {
    if rows != [] {
      PresentCount(rows[..|rows| - 1], files);
    }
  }

  lemma {:induction false} PresentFacts(rows: seq<ArtworkId>, files: set<ArtworkId>)
    requires Increasing(rows)
    ensures Increasing(Present(rows, files))
    ensures forall id :: id in Present(rows, files) <==> id in rows && id in files
  {
    if rows != [] {
      var front, last := rows[..|rows| - 1], rows[|rows| - 1];
      PresentFacts(front, files);
      assert rows == front + [last];
      var items := Present(front, files);
      forall i | 0 <= i < |items| ensures Less(items[i], last) {
        assert items[i] in front;
      }
    }
  }

  function Written(b: Batch): nat {
    b.written
  }

  function Stored(b: Batch): nat {
    b.stored
  }

  /** The rows of a page that are counted both as processed and as errors. */
  function Twice(b: Batch): nat {
    if b.WriteFailed() then b.written else 0
  }

  /** A write failed after another had succeeded. */
  predicate FailedLate(b: Batch) {
    b.WriteFailed() && b.written > 0
  }

  /** Each row of a page is counted once if and only if no write failed after another had succeeded. */
  lemma CountedOnceIff(b: Batch)
    requires b.Valid()
    ensures b.written + b.Errors() == b.Rows() + Twice(b)
    ensures b.written + b.Errors() == b.Rows() <==> !FailedLate(b)
  {
  }

  /** Two rows and a second write that fails: one row processed, two errors. */
  lemma CountedTwice()
    ensures var b := BatchOf(["a", "b"], {"a", "b"}, Answer(true, Some(Failure(1, false))));
            FailedLate(b) && b.Rows() == 2 && b.written == 1 && b.Errors() == 2
  {
    assert ["a", "b"][..1] == ["a"] && ["a"][..0] == [];
    assert Present(["a"], {"a", "b"}) == ["a"];
  }

  function Total(log: seq<Batch>, f: Batch -> nat): nat {
    if log == [] then 0 else Total(log[..|log| - 1], f) + f(log[|log| - 1])
  }

  lemma TotalNext(log: seq<Batch>, b: Batch, f: Batch -> nat)
    ensures Total(log + [b], f) == Total(log, f) + f(b)
  {
    assert (log + [b])[..|log|] == log;
  }

  lemma {:induction false} NoneTwiceIff(log: seq<Batch>)
    ensures Total(log, Twice) == 0 <==> forall b | b in log :: !FailedLate(b)
  {
    if log != [] {
      var front, last := log[..|log| - 1], log[|log| - 1];
      NoneTwiceIff(front);
      assert Total(log, Twice) == Total(front, Twice) + Twice(last);
      assert log == front + [last];
      assert FailedLate(last) <==> Twice(last) > 0;
      if Total(log, Twice) == 0 {
        forall b | b in log ensures !FailedLate(b) {
          assert b in front || b == last;
        }
      }
    }
  }

  // ----- all pages of a run -----

  /** What becomes of the pages: page `k` meets answer `k`. */
  function Outcomes(pages: seq<seq<ArtworkId>>, files: set<ArtworkId>, answers: nat -> Answer): seq<Batch> {
    seq(|pages|, k requires 0 <= k < |pages| => BatchOf(pages[k], files, answers(k)))
  }

  function Flat(pages: seq<seq<ArtworkId>>): seq<ArtworkId> {
    if pages == [] then [] else Flat(pages[..|pages| - 1]) + pages[|pages| - 1]
  }

  function AllStored(pages: seq<seq<ArtworkId>>, files: set<ArtworkId>, answers: nat -> Answer): set<ArtworkId> {
    if pages == [] then {}
    else
      var last := |pages| - 1;
      AllStored(pages[..last], files, answers) + StoredOf(pages[last], files, answers(last))
  }

  lemma PagesNext(pages: seq<seq<ArtworkId>>, rows: seq<ArtworkId>, files: set<ArtworkId>, answers: nat -> Answer)
    ensures Outcomes(pages + [rows], files, answers)
         == Outcomes(pages, files, answers) + [BatchOf(rows, files, answers(|pages|))]
    ensures Flat(pages + [rows]) == Flat(pages) + rows
    ensures AllStored(pages + [rows], files, answers)
         == AllStored(pages, files, answers) + StoredOf(rows, files, answers(|pages|))
  {
    assert (pages + [rows])[..|pages|] == pages;
  }

  /** Exactly the rows that the pages stored have left the pending set. */
  ghost predicate Left(
    pages: seq<seq<ArtworkId>>, files: set<ArtworkId>, answers: nat -> Answer,
    start: set<ArtworkId>, pending: set<ArtworkId>)
  {
    && pending == start - AllStored(pages, files, answers)
    && |start - pending| == Total(Outcomes(pages, files, answers), Stored)
  }

  /** The counts are exactly those of the pages. */
  ghost predicate Accounts(
    pages: seq<seq<ArtworkId>>, files: set<ArtworkId>, answers: nat -> Answer,
    yielded: seq<ArtworkId>, processed: nat, errors: nat)
  {
    && yielded == Flat(pages)
    && processed == Total(Outcomes(pages, files, answers), Written)
    && processed + errors == |yielded| + Total(Outcomes(pages, files, answers), Twice)
  }

  lemma LeftNext(
    pages: seq<seq<ArtworkId>>, files: set<ArtworkId>, answers: nat -> Answer,
    start: set<ArtworkId>, pending: set<ArtworkId>, rows: seq<ArtworkId>, stored: set<ArtworkId>)
    requires Left(pages, files, answers, start, pending)
    requires stored == StoredOf(rows, files, answers(|pages|)) && stored <= pending <= start
    requires |stored| == BatchOf(rows, files, answers(|pages|)).stored
    ensures Left(pages + [rows], files, answers, start, pending - stored)
  {
    PagesNext(pages, rows, files, answers);
    CountsNext(Outcomes(pages, files, answers), BatchOf(rows, files, answers(|pages|)));
    SplitDifference(start, pending, stored);
    RestNext(start, AllStored(pages, files, answers), stored);
    hide Total, Outcomes, AllStored, BatchOf, StoredOf;
  }

  lemma AccountsNext(
    pages: seq<seq<ArtworkId>>, files: set<ArtworkId>, answers: nat -> Answer,
    yielded: seq<ArtworkId>, processed: nat, errors: nat, rows: seq<ArtworkId>, p: nat, e: nat)
    requires Accounts(pages, files, answers, yielded, processed, errors)
    requires var b := BatchOf(rows, files, answers(|pages|)); p == b.written && e == b.Errors()
    ensures Accounts(pages + [rows], files, answers, yielded + rows, processed + p, errors + e)
  {
    PagesNext(pages, rows, files, answers);
    CountsNext(Outcomes(pages, files, answers), BatchOf(rows, files, answers(|pages|)));
    hide Total, Outcomes, Flat, BatchOf;
  }

  lemma CountsNext(log: seq<Batch>, b: Batch)
    requires b.Valid()
    ensures Total(log + [b], Written) == Total(log, Written) + b.written
    ensures Total(log + [b], Stored) == Total(log, Stored) + b.stored
    ensures Total(log + [b], Twice) == Total(log, Twice) + b.written + b.Errors() - b.Rows()
  {
    TotalNext(log, b, Twice);
    TotalNext(log, b, Written);
    TotalNext(log, b, Stored);
    CountedOnceIff(b);
  }

  lemma RestNext(start: set<ArtworkId>, a: set<ArtworkId>, b: set<ArtworkId>)
    ensures (start - a) - b == start - (a + b)
  {
  }

  lemma AccountsMean(
    pages: seq<seq<ArtworkId>>, files: set<ArtworkId>, answers: nat -> Answer,
    yielded: seq<ArtworkId>, processed: nat, errors: nat)
    requires Accounts(pages, files, answers, yielded, processed, errors)
    ensures processed + errors == |yielded| <==> forall b | b in Outcomes(pages, files, answers) :: !FailedLate(b)
  {
    NoneTwiceIff(Outcomes(pages, files, answers));
  }

  lemma NoPages(files: set<ArtworkId>, answers: nat -> Answer, start: set<ArtworkId>)
    ensures Left([], files, answers, start, start) && Accounts([], files, answers, [], 0, 0)
  {
    assert start - start == {} && Outcomes([], files, answers) == [];
  }

  lemma SplitDifference(start: set<ArtworkId>, before: set<ArtworkId>, gone: set<ArtworkId>)
    requires gone <= before <= start
    ensures |start - (before - gone)| == |start - before| + |gone|
  {
    assert start - (before - gone) == (start - before) + gone;
  }

  class EmbeddingDb {
    const bundle: Bundle
    const batchSize: nat
    var artworks: map<ArtworkId, Artwork>
    var embeddings: map<ArtworkId, Bundle>

    constructor (bundle: Bundle, batchSize: nat, artworks: map<ArtworkId, Artwork>, embeddings: map<ArtworkId, Bundle>)
      ensures this.bundle == bundle && this.batchSize == batchSize
      ensures this.artworks == artworks && this.embeddings == embeddings
    {
      this.bundle, this.batchSize, this.artworks, this.embeddings := bundle, batchSize, artworks, embeddings;
    }

    predicate IsPending(id: ArtworkId)
      reads this
    {
      && id in artworks && artworks[id].validated && artworks[id].processedPath.Some?
      && (id !in embeddings || embeddings[id] != bundle)
    }

    /** The validated artworks with a processed image whose embedding in `stored` is missing or outdated. */
    function PendingIn(stored: map<ArtworkId, Bundle>): set<ArtworkId>
      reads this`artworks
    {
      set id | id in artworks && artworks[id].validated && artworks[id].processedPath.Some?
               && (id !in stored || stored[id] != bundle)
    }

    function Pending(): set<ArtworkId>
      reads this
    {
      PendingIn(embeddings)
    }

    /** The embeddings of all other artworks are untouched. */
    ghost predicate OnlyEmbeds(before: map<ArtworkId, Bundle>, rows: seq<ArtworkId>)
      reads this
    {
      forall id | id !in rows ::
        (id in embeddings <==> id in before) && (id in embeddings ==> embeddings[id] == before[id])
    }

    /** The rows that are no longer pending. */
    ghost function Current(rows: seq<ArtworkId>): set<ArtworkId>
      reads this
    {
      set id | id in rows && !IsPending(id)
    }

    /** Rows whose processed file exists; each other row is an error. */
    method FilesPresent(rows: seq<ArtworkId>, files: set<ArtworkId>) returns (items: seq<ArtworkId>, errors: nat)
      ensures items == Present(rows, files) && |items| + errors == |rows|
    {
      items, errors := [], 0;
      for i := 0 to |rows|
        invariant items == Present(rows[..i], files) && |items| + errors == i
      {
        assert rows[..i + 1][..i] == rows[..i];
        if rows[i] in files {
          items := items + [rows[i]];
        } else {
          errors := errors + 1;
        }
      }
      assert rows[..|rows|] == rows;
    }

    function EmbedAll(before: map<ArtworkId, Bundle>, ids: set<ArtworkId>): map<ArtworkId, Bundle> {
      before + map id | id in ids :: bundle
    }

    lemma EmbedOneMore(before: map<ArtworkId, Bundle>, ids: set<ArtworkId>, id: ArtworkId)
      ensures EmbedAll(before, ids + {id}) == EmbedAll(before, ids)[id := bundle]
    {
    }

    /** Write the embeddings one by one, each row stored and then logged, until one fails. */
    method WriteEmbeddings(items: seq<ArtworkId>, failure: Option<Failure>)
      returns (written: nat, ok: bool, ghost stored: nat)
      requires Increasing(items)
      modifies this`embeddings
      ensures ok <==> failure == None || failure.value.at >= |items|
      ensures written == if ok then |items| else failure.value.at
      ensures stored == written + if !ok && failure.value.stored then 1 else 0
      ensures stored <= |items| && |FirstOf(items, stored)| == stored
      ensures embeddings == EmbedAll(old(embeddings), FirstOf(items, stored))
    {
      written, ok, stored := 0, true, 0;
      assert FirstOf(items, 0) == {};
      assert EmbedAll(embeddings, {}) == embeddings;
      hide FirstOf, EmbedAll, Increasing;
      while written < |items| && !(failure.Some? && failure.value.at == written)
        invariant written <= |items| && |FirstOf(items, written)| == written
        invariant failure.Some? ==> written <= failure.value.at
        invariant embeddings == EmbedAll(old(embeddings), FirstOf(items, written))
      {
        StoreOne(old(embeddings), items, written);
        written := written + 1;
      }
      ok, stored := written == |items|, written;
      if !ok && failure.value.stored {
        StoreOne(old(embeddings), items, written);
        stored := written + 1;
      }
    }

    method StoreOne(ghost before: map<ArtworkId, Bundle>, items: seq<ArtworkId>, k: nat)
      requires Increasing(items) && k < |items| && |FirstOf(items, k)| == k
      requires embeddings == EmbedAll(before, FirstOf(items, k))
      modifies this`embeddings
      ensures embeddings == EmbedAll(before, FirstOf(items, k + 1)) && |FirstOf(items, k + 1)| == k + 1
    {
      FirstOfNext(items, k);
      EmbedOneMore(before, FirstOf(items, k), items[k]);
      embeddings := embeddings[items[k] := bundle];
    }

    lemma StoredAreCurrent(before: map<ArtworkId, Bundle>, rows: seq<ArtworkId>, items: seq<ArtworkId>, stored: nat)
      requires stored <= |items| && forall id | id in items :: id in rows
      requires forall id | id in rows :: id in artworks && artworks[id].validated && artworks[id].processedPath.Some?
      requires forall id | id in rows :: id !in before || before[id] != bundle
      requires embeddings == EmbedAll(before, FirstOf(items, stored))
      ensures OnlyEmbeds(before, rows) && Current(rows) == FirstOf(items, stored)
    {
      assert forall id | id in FirstOf(items, stored) :: id in items;
    }

    /**
     One batch: a missing file is an error, a failed model call an error for every work item,
     and a failed write an error for every work item, those already written included. So each
     row is counted once if and only if no write failed after another had succeeded.
     */
    method ProcessBatch(rows: seq<ArtworkId>, files: set<ArtworkId>, answer: Answer)
      returns (processed: nat, errors: nat)
      requires Increasing(rows) && forall id | id in rows :: id in Pending()
      modifies this`embeddings
      ensures OnlyEmbeds(old(embeddings), rows)
      ensures Current(rows) == StoredOf(rows, files, answer)
      ensures |Current(rows)| == BatchOf(rows, files, answer).stored
      ensures processed == BatchOf(rows, files, answer).written && errors == BatchOf(rows, files, answer).Errors()
      ensures processed + errors == |rows| <==> !FailedLate(BatchOf(rows, files, answer))
      ensures !answer.modelOk ==> Current(rows) == {} && processed == 0 && errors == |rows|
      ensures answer.modelOk && answer.failure == None ==>
        (forall id :: id in Current(rows) <==> id in rows && id in files)
        && processed == |Current(rows)| && errors == |rows| - processed
    {
      var items;
      items, errors := FilesPresent(rows, files);
      PresentFacts(rows, files);
      processed := 0;
      ghost var stored := 0;
      if items != [] && !answer.modelOk {
        errors := errors + |items|;
      } else if items != [] {
        var ok;
        processed, ok, stored := WriteEmbeddings(items, answer.failure);
        if !ok {
          errors := errors + |items|;
        }
      }
      assert EmbedAll(old(embeddings), FirstOf(items, 0)) == old(embeddings);
      StoredAreCurrent(old(embeddings), rows, items, stored);
      if stored == |items| {
        FirstOfAll(items);
      }
      CountedOnceIff(BatchOf(rows, files, answer));
    }

    /** Yielded so far, in order, are the ids of the starting set up to `last`; those after it are all pending. */
    ghost predicate StreamedTo(
      yielded: seq<ArtworkId>, start: set<ArtworkId>, pending: set<ArtworkId>, last: ArtworkId)
    {
      && Increasing(yielded)
      && (forall id :: id in yielded <==> id in start && id != "" && !Less(last, id))
      && (forall id | id in start && Less(last, id) :: id in pending)
    }

    /** A page continues the yielded ids with exactly the pending ones up to its last key. */
    lemma PageExtends(
      yielded: seq<ArtworkId>, rows: seq<ArtworkId>, start: set<ArtworkId>, pending: set<ArtworkId>,
      last: ArtworkId, limit: nat)
      requires rows != [] && IsPage(rows, pending, last, limit) && pending <= start
      requires StreamedTo(yielded, start, pending, last)
      ensures Increasing(rows) && forall id | id in rows :: id in pending
      ensures forall gone: set<ArtworkId> | (forall id | id in gone :: id in rows) ::
        StreamedTo(yielded + rows, start, pending - gone, rows[|rows| - 1])
    {
      var all, next := yielded + rows, rows[|rows| - 1];
      forall i, j | 0 <= i < j < |all| ensures Less(all[i], all[j]) {
        if i < |yielded| <= j {
          assert all[i] in yielded;
          LessTotal(all[i], last);
          AcrossPages(all[i], last, rows[j - |yielded|]);
        }
      }
      forall id ensures id in all <==> id in start && id != "" && !Less(next, id) {
        PageMember(yielded, rows, start, pending, last, limit, id);
      }
      forall id | id in start && Less(next, id) ensures id in pending && id !in rows {
        PastPage(rows, pending, last, limit, id);
      }
    }

    /** What lies after a page lies after its starting key, and not on the page. */
    lemma PastPage(rows: seq<ArtworkId>, pending: set<ArtworkId>, last: ArtworkId, limit: nat, id: ArtworkId)
      requires rows != [] && IsPage(rows, pending, last, limit) && Less(rows[|rows| - 1], id)
      ensures Less(last, id) && id !in rows
    {
      var next := rows[|rows| - 1];
      LessTransitive(last, next, id);
      LessTotal(next, id);
      if id in rows {
        var k :| 0 <= k < |rows| && rows[k] == id;
      }
    }

    lemma AcrossPages(a: ArtworkId, last: ArtworkId, b: ArtworkId)
      requires !Less(last, a) && Less(last, b)
      ensures Less(a, b)
    {
      LessTotal(a, last);
      if a != last {
        LessTransitive(a, last, b);
      }
    }

    lemma PageMember(
      yielded: seq<ArtworkId>, rows: seq<ArtworkId>, start: set<ArtworkId>, pending: set<ArtworkId>,
      last: ArtworkId, limit: nat, id: ArtworkId)
      requires rows != [] && IsPage(rows, pending, last, limit) && pending <= start
      requires id in yielded <==> id in start && id != "" && !Less(last, id)
      requires id in start && Less(last, id) ==> id in pending
      ensures id in yielded + rows <==> id in start && id != "" && !Less(rows[|rows| - 1], id)
    {
      var next := rows[|rows| - 1];
      LessTotal(next, id);
      if id in rows {
        var k :| 0 <= k < |rows| && rows[k] == id;
        assert k < |rows| - 1 ==> Less(rows[k], next);
      } else if Less(last, id) && id in pending {
        assert Less(next, id);
      } else if !Less(last, id) {
        assert Less(last, next);
        if Less(next, id) {
          LessTransitive(last, next, id);
        }
      }
    }

    /** Writing only `rows` removes exactly the written ones from the pending set. */
    lemma PendingAfter(earlier: map<ArtworkId, Bundle>, rows: seq<ArtworkId>)
      requires (forall id | id in rows :: id in PendingIn(earlier)) && OnlyEmbeds(earlier, rows)
      ensures Pending() == PendingIn(earlier) - Current(rows) && Current(rows) <= PendingIn(earlier)
      ensures forall id | id in Current(rows) :: id in rows
    {
    }

    /**
     The streaming loop. Every artwork pending at the start is yielded exactly once, in
     strictly increasing order, although each batch changes the pending set; only an artwork
     with an empty id, which sorts with the initial key, is never seen. Exactly the rows whose file
     exists and whose write was reached leave the pending set. Every yielded row is counted once
     if and only if in no page a write failed after another had succeeded.
     */
    method GenerateEmbeddings(files: set<ArtworkId>, answers: nat -> Answer)
      returns (yielded: seq<ArtworkId>, processed: nat, errors: nat, ghost pages: seq<seq<ArtworkId>>)
      requires batchSize > 0
      modifies this`embeddings
      ensures Increasing(yielded)
      ensures forall id :: id in yielded <==> id in old(Pending()) && id != ""
      ensures Left(pages, files, answers, old(Pending()), Pending())
      ensures Accounts(pages, files, answers, yielded, processed, errors)
      ensures processed + errors == |yielded| <==> forall b | b in Outcomes(pages, files, answers) :: !FailedLate(b)
    {
      var last: ArtworkId := "";
      var pageCount := 0;
      yielded, processed, errors, pages := [], 0, 0, [];
      ghost var start := Pending();
      NoPages(files, answers, start);
      assert StreamedTo([], start, start, "");
      assert forall stored :: PendingIn(stored) <= artworks.Keys;
      hide PendingIn, StreamedTo, IsPage, Increasing, OnlyEmbeds, Left, Accounts, BatchOf, StoredOf, FailedLate;
      while true
        invariant pageCount == |pages| && Pending() <= start
        invariant StreamedTo(yielded, start, Pending(), last)
        invariant Left(pages, files, answers, start, Pending())
        invariant Accounts(pages, files, answers, yielded, processed, errors)
        decreases Ahead(last)
      {
        var rows := SelectPage(Pending(), last, batchSize);
        if rows == [] {
          StreamEnds(yielded, start, Pending(), last, batchSize);
          break;
        }
        ghost var before, earlier := Pending(), embeddings;
        PageExtends(yielded, rows, start, before, last, batchSize);
        var p, e := ProcessBatch(rows, files, answers(pageCount));
        PendingAfter(earlier, rows);
        LeftNext(pages, files, answers, start, before, rows, Current(rows));
        AccountsNext(pages, files, answers, yielded, processed, errors, rows, p, e);
        processed, errors, yielded := processed + p, errors + e, yielded + rows;
        pages, pageCount := pages + [rows], pageCount + 1;
        Advances(last, rows, before, batchSize);
        last := rows[|rows| - 1];
      }
      AccountsMean(pages, files, answers, yielded, processed, errors);
    }

    ghost function Ahead(last: ArtworkId): set<ArtworkId>
      reads this
    {
      set id | id in artworks && Less(last, id)
    }

    lemma Advances(last: ArtworkId, rows: seq<ArtworkId>, pending: set<ArtworkId>, limit: nat)
      requires rows != [] && IsPage(rows, pending, last, limit) && pending <= artworks.Keys
      ensures Ahead(rows[|rows| - 1]) < Ahead(last)
    {
      var next := rows[|rows| - 1];
      LessTotal(next, next);
      forall id | Less(next, id) ensures Less(last, id) {
        PastPage(rows, pending, last, limit, id);
      }
      assert next in Ahead(last) && next !in Ahead(next);
    }

    /** When no page follows, everything pending at the start has been yielded, but for an empty id. */
    lemma StreamEnds(
      yielded: seq<ArtworkId>, start: set<ArtworkId>, pending: set<ArtworkId>, last: ArtworkId, limit: nat)
      requires StreamedTo(yielded, start, pending, last) && IsPage([], pending, last, limit) && limit > 0
      ensures Increasing(yielded) && forall id :: id in yielded <==> id in start && id != ""
    {
    }
  }
}
