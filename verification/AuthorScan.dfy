/**
 Incremental scan of one author feed: the paged scan loop, the stored actor row it
 advances, and the protocol formed by running it again and again while the feed grows.

 A feed is kept oldest first, so new posts are appended and an index names the same post
 for ever. A missing uri or mark is the empty string, which the source treats like `None`.
 */
module AuthorScan {
  import opened Wrappers

  type Uri = string

  /** One feed item and the number of image candidates it yields. */
  datatype Item = Item(uri: Uri, candidates: nat)

  /** Candidates are made from the uri of their post, so an item without one yields none. */
  type FeedItem = item: Item | item.uri == "" ==> item.candidates == 0 witness Item("", 0)

  /** `At(i)` continues with the items older than index `i`; `EmptyCursor` is the empty string. */
  datatype Cursor = NoCursor | EmptyCursor | At(index: nat)

  /** The answer to one feed request; `feed` is newest first. */
  datatype Reply = Failed | Page(feed: seq<FeedItem>, cursor: Cursor)

  // ----- the server -----

  /** An absent and an empty cursor both ask for the top of the feed. */
  function Start(posts: seq<FeedItem>, cursor: Cursor): nat {
    if cursor.At? then cursor.index else |posts|
  }

  ghost predicate Serves(posts: seq<FeedItem>, from: nat, feed: seq<FeedItem>, cursor: Cursor) {
    && |feed| <= from <= |posts|
    && (forall k | 0 <= k < |feed| :: feed[k] == posts[from - 1 - k])
    && (cursor.At? ==> cursor.index == from - |feed|)
    && (cursor.NoCursor? ==> |feed| == from)
  }

  ghost predicate ServedBy(posts: seq<FeedItem>, from: nat, replies: seq<Reply>) {
    && from <= |posts|
    && (replies != [] && replies[0].Page? ==>
          && Serves(posts, from, replies[0].feed, replies[0].cursor)
          && (replies[0].cursor.At? ==> ServedBy(posts, replies[0].cursor.index, replies[1..])))
  }

  lemma ServedNext(posts: seq<FeedItem>, from: nat, replies: seq<Reply>, k: nat)
    requires k < |replies| && ServedBy(posts, from, replies[k..])
    ensures replies[k].Page? ==> Serves(posts, from, replies[k].feed, replies[k].cursor)
    ensures replies[k].Page? && replies[k].cursor.At? ==> ServedBy(posts, from - |replies[k].feed|, replies[k + 1..])
  {
    assert replies[k..][0] == replies[k] && replies[k..][1..] == replies[k + 1..];
  }

  /** Posts that arrive while a scan is under way are invisible to its later pages. */
  lemma {:induction false} GrowthIsInvisible(
    posts: seq<FeedItem>, newer: seq<FeedItem>, from: nat, replies: seq<Reply>)
    requires from <= |posts| && ServedBy(posts + newer, from, replies)
    ensures ServedBy(posts, from, replies)
    decreases |replies|
  {
    if replies != [] && replies[0].Page? && replies[0].cursor.At? {
      GrowthIsInvisible(posts, newer, replies[0].cursor.index, replies[1..]);
    }
  }

  // ----- what one scan reports -----

  /** `whole` says that the limit fell on the last candidate of the item it cut. */
  datatype ScanEnd = HighWater | Exhausted | CandidateLimit(whole: bool) | PageCap | ApiError

  /** What a scan with this candidate limit came to; the candidates of all items from `lo` up were yielded. */
  datatype ScanReport = ScanReport(limit: Option<int>, lo: nat, end: ScanEnd, newest: Uri, next: Cursor)

  /** A candidate: an image of a post. */
  datatype Image = Image(post: Uri, index: nat)

  function ImagesOf(item: FeedItem): (images: seq<Image>)
    ensures |images| == item.candidates
  {
    seq(item.candidates, k requires 0 <= k => Image(item.uri, k))
  }

  /** The candidates of the items from `hi` down to `lo`, in the order they are yielded. */
  function Yields(posts: seq<FeedItem>, lo: nat, hi: nat): seq<Image>
    requires lo <= hi <= |posts|
    decreases hi - lo
  {
    if lo == hi then [] else Yields(posts, lo + 1, hi) + ImagesOf(posts[lo])
  }

  /** The first non-empty uri met walking down from `hi`, unless one is already known. */
  function FirstUri(posts: seq<FeedItem>, lo: nat, hi: nat, known: Uri): Uri
    requires lo <= hi <= |posts|
  {
    if known != "" || lo == hi then known
    else FirstUri(posts, lo, hi - 1, posts[hi - 1].uri)
  }

  /** The scan ended at an item it looked at but did not yield whole: the stop post, or one cut inside. */
  predicate EndsBefore(end: ScanEnd) {
    end.HighWater? || end == CandidateLimit(false)
  }

  /** The oldest index the scan looked at. */
  function LookedDownTo(r: ScanReport): nat {
    if EndsBefore(r.end) && r.lo > 0 then r.lo - 1 else r.lo
  }

  /** The limit falls on a candidate of the item at `cut`, on its last one if it is yielded whole. */
  ghost predicate LimitFallsAt(posts: seq<FeedItem>, cut: int, start: nat, limit: Option<int>, whole: bool) {
    && 0 <= cut < start <= |posts| && limit.Some?
    && |Yields(posts, cut + 1, start)| < limit.value <= |Yields(posts, cut, start)|
    && (whole <==> limit.value == |Yields(posts, cut, start)|)
  }

  /** The item at which the limit fell. */
  function CutIndex(lo: nat, end: ScanEnd): int {
    if end == CandidateLimit(false) then lo - 1 else lo
  }

  /** The scan ended for the reason `end`, all items from `lo` up to `start` being yielded. */
  ghost predicate EndsAt(
    posts: seq<FeedItem>, start: nat, stop: Uri, known: Uri, limit: Option<int>, lo: nat, end: ScanEnd, newest: Uri)
  {
    && lo <= start <= |posts| && (EndsBefore(end) ==> lo > 0)
    && (end.HighWater? ==> stop != "" && posts[lo - 1].uri == stop)
    && (end == CandidateLimit(false) ==> stop == "" || posts[lo - 1].uri != stop)
    && (end.CandidateLimit? ==> LimitFallsAt(posts, CutIndex(lo, end), start, limit, end.whole))
    && (!end.CandidateLimit? && limit.Some? ==> |Yields(posts, lo, start)| < limit.value)
    && newest == FirstUri(posts, if EndsBefore(end) then lo - 1 else lo, start, known)
  }

  /** What was yielded: every candidate down to `lo`, or down to the limit. */
  ghost predicate Emits(
    posts: seq<FeedItem>, start: nat, limit: Option<int>, lo: nat, end: Option<ScanEnd>, emitted: seq<Image>)
  {
    && lo <= start <= |posts|
    && (IsCut(end) ==>
          LimitFallsAt(posts, CutIndex(lo, end.value), start, limit, end.value.whole)
          && emitted == Yields(posts, CutIndex(lo, end.value), start)[..limit.value])
    && (!IsCut(end) ==> emitted == Yields(posts, lo, start))
  }

  predicate IsCut(end: Option<ScanEnd>) {
    end.Some? && end.value.CandidateLimit?
  }

  ghost predicate Explains(posts: seq<FeedItem>, start: nat, stop: Uri, known: Uri, r: ScanReport) {
    && EndsAt(posts, start, stop, known, r.limit, r.lo, r.end, r.newest)
    && (forall i | r.lo <= i < start :: stop == "" || posts[i].uri != stop)
    && (r.end.Exhausted? ==> r.lo == 0)
    && (r.end.PageCap? ==> r.next == At(r.lo) || r.next == EmptyCursor)
  }

  lemma {:induction false} FirstUriSplit(posts: seq<FeedItem>, lo: nat, mid: nat, hi: nat, known: Uri)
    requires lo <= mid <= hi <= |posts|
    ensures FirstUri(posts, lo, hi, known) == FirstUri(posts, lo, mid, FirstUri(posts, mid, hi, known))
    decreases hi
  {
    if known == "" && mid < hi {
      FirstUriSplit(posts, lo, mid, hi - 1, posts[hi - 1].uri);
    }
  }

  lemma FirstUriNext(posts: seq<FeedItem>, at: nat, hi: nat, known: Uri)
    requires at < hi <= |posts|
    ensures var above := FirstUri(posts, at + 1, hi, known);
            FirstUri(posts, at, hi, known) == if above == "" then posts[at].uri else above
  {
    FirstUriSplit(posts, at, at + 1, hi, known);
  }

  class AuthorScanProgress {
    var newestPostUri: Uri
    var pagesSeen: nat
    var reachedHighWater: bool
    var feedExhausted: bool
    var candidateLimitReached: bool
    var nextCursor: Cursor

    constructor (newest: Uri)
      ensures newestPostUri == newest && pagesSeen == 0 && nextCursor == NoCursor
      ensures !reachedHighWater && !feedExhausted && !candidateLimitReached
    {
      newestPostUri, pagesSeen, nextCursor := newest, 0, NoCursor;
      reachedHighWater, feedExhausted, candidateLimitReached := false, false, false;
    }
  }

  /** The items of `posts` from `start` down, newest first, none of them the stop post. */
  ghost predicate Walked(posts: seq<FeedItem>, start: nat, stop: Uri, scanned: seq<FeedItem>) {
    && |scanned| <= start <= |posts|
    && (forall k | 0 <= k < |scanned| :: scanned[k] == posts[start - 1 - k])
    && (forall k | 0 <= k < |scanned| :: stop == "" || scanned[k].uri != stop)
  }

  lemma WalkedIsClear(posts: seq<FeedItem>, start: nat, stop: Uri, scanned: seq<FeedItem>)
    requires Walked(posts, start, stop, scanned)
    ensures forall i | start - |scanned| <= i < start :: stop == "" || posts[i].uri != stop
  {
    forall i | start - |scanned| <= i < start ensures stop == "" || posts[i].uri != stop {
      assert scanned[start - 1 - i] == posts[i];
    }
  }

  /** A scan may end between any two items when a page is missing, the last, or one too many. */
  lemma EndsHere(
    posts: seq<FeedItem>, start: nat, stop: Uri, known: Uri, limit: Option<int>, lo: nat, newest: Uri)
    requires lo <= start <= |posts| && newest == FirstUri(posts, lo, start, known)
    requires limit.Some? ==> |Yields(posts, lo, start)| < limit.value
    ensures forall end | end in {Exhausted, PageCap, ApiError} ::
      EndsAt(posts, start, stop, known, limit, lo, end, newest)
  {
  }

  /** Yields the item's candidates until they, or the limit, are used up. */
  method YieldItem(item: FeedItem, maxCandidates: Option<int>, before: seq<Image>)
    returns (yielded: nat, emitted: seq<Image>)
    requires maxCandidates.Some? ==> |before| < maxCandidates.value
    ensures yielded <= item.candidates && emitted == before + ImagesOf(item)[..yielded]
    ensures maxCandidates.Some? ==> |emitted| <= maxCandidates.value
    ensures yielded < item.candidates ==> maxCandidates.Some? && |emitted| == maxCandidates.value
  {
    yielded, emitted := 0, before;
    while yielded < item.candidates
      invariant yielded <= item.candidates && emitted == before + ImagesOf(item)[..yielded]
      invariant maxCandidates.Some? ==> |emitted| < maxCandidates.value
    {
      assert ImagesOf(item)[..yielded + 1] == ImagesOf(item)[..yielded] + [Image(item.uri, yielded)];
      emitted := emitted + [Image(item.uri, yielded)];
      yielded := yielded + 1;
      if maxCandidates.Some? && |emitted| >= maxCandidates.value {
        return;
      }
    }
  }

  /** What is known of the output after the item at `at`, when the limit has just been reached, or not. */
  lemma AfterItem(
    posts: seq<FeedItem>, at: nat, start: nat, limit: Option<int>, yielded: nat, emitted: seq<Image>)
    requires at < start <= |posts| && yielded <= posts[at].candidates
    requires emitted == Yields(posts, at + 1, start) + ImagesOf(posts[at])[..yielded]
    requires limit.Some? ==> |Yields(posts, at + 1, start)| < limit.value
    ensures yielded == posts[at].candidates ==> emitted == Yields(posts, at, start)
    ensures limit.Some? && |emitted| == limit.value ==>
      && LimitFallsAt(posts, at, start, limit, yielded == posts[at].candidates)
      && emitted == Yields(posts, at, start)[..limit.value]
  {
    var all := Yields(posts, at, start);
    assert all == Yields(posts, at + 1, start) + ImagesOf(posts[at]);
    if yielded == posts[at].candidates {
      assert ImagesOf(posts[at])[..yielded] == ImagesOf(posts[at]);
    }
    assert emitted == all[..|emitted|];
  }

  /** The body of the page loop; `None` when the scan goes on with the next page. */
  method ScanPage(
    ghost posts: seq<FeedItem>, ghost start: nat, ghost known: Uri, feed: seq<FeedItem>, stop: Uri,
    maxCandidates: Option<int>, before: seq<FeedItem>, emittedBefore: seq<Image>, progress: AuthorScanProgress)
    returns (end: Option<ScanEnd>, scanned: seq<FeedItem>, emitted: seq<Image>)
    requires Walked(posts, start, stop, before) && |before| + |feed| <= start
    requires forall k | 0 <= k < |feed| :: feed[k] == posts[start - |before| - 1 - k]
    requires progress.newestPostUri == FirstUri(posts, start - |before|, start, known)
    requires emittedBefore == Yields(posts, start - |before|, start)
    requires maxCandidates.Some? ==> |emittedBefore| < maxCandidates.value
    modifies progress`newestPostUri, progress`reachedHighWater, progress`candidateLimitReached
    ensures Walked(posts, start, stop, scanned)
    ensures end in {None, Some(HighWater), Some(CandidateLimit(true)), Some(CandidateLimit(false))}
    ensures end == None ==> scanned == before + feed
    ensures end == None ==> progress.newestPostUri == FirstUri(posts, start - |scanned|, start, known)
    ensures end == None && maxCandidates.Some? ==> |emitted| < maxCandidates.value
    ensures end.Some? ==>
      EndsAt(posts, start, stop, known, maxCandidates, start - |scanned|, end.value, progress.newestPostUri)
    ensures Emits(posts, start, maxCandidates, start - |scanned|, end, emitted)
    ensures progress.reachedHighWater == (old(progress.reachedHighWater) || end == Some(HighWater))
    ensures progress.candidateLimitReached == (old(progress.candidateLimitReached) || IsCut(end))
  {
    scanned, emitted := before, emittedBefore;
    hide FirstUri, Yields, LimitFallsAt, ImagesOf;
    for j := 0 to |feed|
      invariant scanned == before + feed[..j]
      invariant Walked(posts, start, stop, scanned)
      invariant progress.newestPostUri == FirstUri(posts, start - |scanned|, start, known)
      invariant emitted == Yields(posts, start - |scanned|, start)
      invariant maxCandidates.Some? ==> |emitted| < maxCandidates.value
      invariant progress.reachedHighWater == old(progress.reachedHighWater)
      invariant progress.candidateLimitReached == old(progress.candidateLimitReached)
    {
      var item := feed[j];
      ghost var at := start - 1 - |scanned|;
      FirstUriNext(posts, at, start, known);
      if progress.newestPostUri == "" && item.uri != "" {
        progress.newestPostUri := item.uri;
      }
      if stop != "" && item.uri == stop {
        progress.reachedHighWater := true;
        return Some(HighWater), scanned, emitted;
      }
      var yielded;
      yielded, emitted := YieldItem(item, maxCandidates, emitted);
      AfterItem(posts, at, start, maxCandidates, yielded, emitted);
      if yielded == item.candidates {
        scanned := scanned + [item];
      }
      if maxCandidates.Some? && |emitted| >= maxCandidates.value {
        progress.candidateLimitReached := true;
        return Some(CandidateLimit(yielded == item.candidates)), scanned, emitted;
      }
    }
    return None, scanned, emitted;
  }

  /** Walked from `start`, and ended for a reason, or at a cursor to go on from. */
  ghost predicate ReadTo(
    posts: seq<FeedItem>, start: nat, stop: Uri, known: Uri, limit: Option<int>, scanned: seq<FeedItem>,
    end: Option<ScanEnd>, newest: Uri, next: Cursor)
  {
    && Walked(posts, start, stop, scanned)
    && (end.Some? ==>
          Explains(posts, start, stop, known, ScanReport(limit, start - |scanned|, end.value, newest, next)))
    && (end == None ==> newest == FirstUri(posts, start - |scanned|, start, known) && next == At(start - |scanned|))
  }

  lemma ReadToEnd(
    posts: seq<FeedItem>, start: nat, stop: Uri, known: Uri, limit: Option<int>, scanned: seq<FeedItem>,
    end: ScanEnd, newest: Uri, next: Cursor)
    requires Walked(posts, start, stop, scanned)
    requires EndsAt(posts, start, stop, known, limit, start - |scanned|, end, newest)
    requires end.Exhausted? ==> |scanned| == start
    requires end.PageCap? ==> next == At(start - |scanned|) || next == EmptyCursor
    ensures ReadTo(posts, start, stop, known, limit, scanned, Some(end), newest, next)
  {
    WalkedIsClear(posts, start, stop, scanned);
  }

  /** One round of the page loop: the request, the cursor and the items. */
  method ReadPage(
    ghost posts: seq<FeedItem>, ghost start: nat, ghost known: Uri, reply: Reply, stop: Uri,
    maxCandidates: Option<int>, before: seq<FeedItem>, emittedBefore: seq<Image>, progress: AuthorScanProgress)
    returns (end: Option<ScanEnd>, scanned: seq<FeedItem>, emitted: seq<Image>)
    requires Walked(posts, start, stop, before)
    requires reply.Page? ==> Serves(posts, start - |before|, reply.feed, reply.cursor)
    requires progress.newestPostUri == FirstUri(posts, start - |before|, start, known)
    requires emittedBefore == Yields(posts, start - |before|, start)
    requires maxCandidates.Some? ==> |emittedBefore| < maxCandidates.value
    modifies progress
    ensures ReadTo(posts, start, stop, known, maxCandidates, scanned, end,
                   progress.newestPostUri, progress.nextCursor)
    ensures Emits(posts, start, maxCandidates, start - |scanned|, end, emitted)
    ensures end == None ==> reply.Page? && reply.cursor.At? && scanned == before + reply.feed
    ensures end == None && maxCandidates.Some? ==> |emitted| < maxCandidates.value
    ensures end == Some(ApiError) <==> reply.Failed?
    ensures end == Some(PageCap) ==> progress.nextCursor == EmptyCursor
    ensures progress.pagesSeen == old(progress.pagesSeen) + if reply.Failed? then 0 else 1
    ensures end == Some(Exhausted) ==> progress.feedExhausted
    ensures end in {None, Some(PageCap)} ==> progress.feedExhausted == old(progress.feedExhausted)
    ensures progress.reachedHighWater == (old(progress.reachedHighWater) || end == Some(HighWater))
    ensures progress.candidateLimitReached == (old(progress.candidateLimitReached) || IsCut(end))
  {
    scanned, emitted := before, emittedBefore;
    hide FirstUri, Yields, LimitFallsAt, EndsAt, Explains;
    if reply.Failed? {
      EndsHere(posts, start, stop, known, maxCandidates, start - |scanned|, progress.newestPostUri);
      end := Some(ApiError);
    } else {
      progress.pagesSeen := progress.pagesSeen + 1;
      progress.nextCursor := reply.cursor;
      if reply.cursor.NoCursor? {
        progress.feedExhausted := true;
      }
      end, scanned, emitted := ScanPage(
        posts, start, known, reply.feed, stop, maxCandidates, scanned, emitted, progress);
      if end == None && !reply.cursor.At? {
        EndsHere(posts, start, stop, known, maxCandidates, start - |scanned|, progress.newestPostUri);
        end := Some(if reply.cursor.NoCursor? then Exhausted else PageCap);
      }
    }
    if end.Some? {
      ReadToEnd(posts, start, stop, known, maxCandidates, scanned, end.value,
                progress.newestPostUri, progress.nextCursor);
    }
  }

  /**
   The scan loop. `scanned` lists the items whose candidates were all yielded, newest first, and
   `emitted` is the output. `None` is the error raised for a page cap or candidate limit that is
   not positive.
   */
  method IterAuthorImageCandidates(
    ghost posts: seq<FeedItem>, replies: seq<Reply>, cursor: Cursor, stop: Uri,
    maxPages: int, maxCandidates: Option<int>, progress: AuthorScanProgress)
    returns (end: Option<ScanEnd>, scanned: seq<FeedItem>, emitted: seq<Image>)
    requires |replies| >= maxPages
    requires ServedBy(posts, Start(posts, cursor), replies)
    modifies progress
    ensures end == None <==> maxPages < 1 || (maxCandidates.Some? && maxCandidates.value <= 0)
    ensures end == None ==> unchanged(progress) && scanned == [] && emitted == []
    ensures Walked(posts, Start(posts, cursor), stop, scanned)
    ensures end.Some? ==>
      Explains(posts, Start(posts, cursor), stop, old(progress.newestPostUri),
               ScanReport(maxCandidates, Start(posts, cursor) - |scanned|, end.value,
                          progress.newestPostUri, progress.nextCursor))
    ensures end.Some? ==>
      Emits(posts, Start(posts, cursor), maxCandidates, Start(posts, cursor) - |scanned|, end, emitted)
    ensures progress.reachedHighWater == (old(progress.reachedHighWater) || end == Some(HighWater))
    ensures progress.candidateLimitReached == (old(progress.candidateLimitReached) || IsCut(end))
    ensures end == Some(Exhausted) ==> progress.feedExhausted
    ensures end == Some(PageCap) ==> progress.feedExhausted == old(progress.feedExhausted)
    ensures end == Some(PageCap) ==>
      progress.nextCursor == EmptyCursor || progress.pagesSeen == old(progress.pagesSeen) + maxPages
    ensures end == Some(ApiError) ==> exists i | 0 <= i < maxPages :: replies[i].Failed?
  {
    scanned, emitted := [], [];
    if (maxCandidates.Some? && maxCandidates.value <= 0) || maxPages < 1 {
      return None, scanned, emitted;
    }
    var pageCount := 0;
    ghost var start, known := Start(posts, cursor), progress.newestPostUri;
    assert replies[0..] == replies;
    assert Yields(posts, start, start) == [] && FirstUri(posts, start, start, known) == known;
    hide EndsAt, ServedBy, LimitFallsAt, Yields, FirstUri, Explains;
    while pageCount < maxPages
      invariant 0 <= pageCount <= maxPages
      invariant Walked(posts, start, stop, scanned)
      invariant ServedBy(posts, start - |scanned|, replies[pageCount..])
      invariant pageCount > 0 ==> progress.nextCursor == At(start - |scanned|)
      invariant progress.newestPostUri == FirstUri(posts, start - |scanned|, start, known)
      invariant emitted == Yields(posts, start - |scanned|, start)
      invariant maxCandidates.Some? ==> |emitted| < maxCandidates.value
      invariant progress.pagesSeen == old(progress.pagesSeen) + pageCount
      invariant progress.feedExhausted == old(progress.feedExhausted)
      invariant progress.reachedHighWater == old(progress.reachedHighWater)
      invariant progress.candidateLimitReached == old(progress.candidateLimitReached)
    {
      ServedNext(posts, start - |scanned|, replies, pageCount);
      end, scanned, emitted := ReadPage(
        posts, start, known, replies[pageCount], stop, maxCandidates, scanned, emitted, progress);
      if end.Some? {
        return;
      }
      pageCount := pageCount + 1;
    }
    EndsHere(posts, start, stop, known, maxCandidates, start - |scanned|, progress.newestPostUri);
    ReadToEnd(posts, start, stop, known, maxCandidates, scanned, PageCap,
              progress.newestPostUri, progress.nextCursor);
    return Some(PageCap), scanned, emitted;
  }

  // ----- the stored actor row -----

  datatype ActorState = ActorState(
    highWater: Uri, pendingHighWater: Uri, resumeCursor: Cursor,
    lastScanComplete: bool, lastCandidateCount: nat, lastError: Option<string>)

  const NEW_ACTOR := ActorState("", "", NoCursor, false, 0, None)

  function AfterScan(row: ActorState, newest: Uri, count: nat, complete: bool, cursor: Cursor): ActorState {
    ActorState(
      if complete && newest != "" then newest else row.highWater,
      if complete then "" else if row.pendingHighWater != "" then row.pendingHighWater else newest,
      if complete then NoCursor else cursor,
      complete, count, None)
  }

  function AfterError(row: ActorState, error: string): ActorState {
    row.(lastScanComplete := false, lastError := Some(error))
  }

  /** The completion rule: a first scan is complete by design, as is one cut by the limit. */
  predicate IsComplete(row: ActorState, end: ScanEnd) {
    row.highWater == "" || end.HighWater? || end.Exhausted? || end.CandidateLimit?
  }

  function Advance(row: ActorState, r: ScanReport, count: nat, error: string): ActorState {
    if r.end.ApiError? then AfterError(row, error)
    else AfterScan(row, r.newest, count, IsComplete(row, r.end), r.next)
  }

  /**
   What a scan leaves in the row, by its end. A scan that met the mark, the end of the feed or the
   limit, and any first scan that did not fail, moves the mark and clears the backlog; one that was
   capped keeps the mark and goes on later; a failed one keeps everything but the flag and the error.
   */
  predicate Recorded(row: ActorState, r: ScanReport, count: nat, error: string, after: ActorState) {
    match r.end
    case ApiError => after == row.(lastScanComplete := false, lastError := Some(error))
    case PageCap =>
      if row.highWater == "" then Completed(row, r.newest, count, after)
      else Continued(row, r.newest, count, r.next, after)
    case _ => Completed(row, r.newest, count, after)
  }

  predicate Completed(row: ActorState, newest: Uri, count: nat, after: ActorState) {
    && after.highWater == (if newest == "" then row.highWater else newest)
    && after.pendingHighWater == "" && after.resumeCursor == NoCursor && after.lastScanComplete
    && after.lastCandidateCount == count && after.lastError == None
  }

  predicate Continued(row: ActorState, newest: Uri, count: nat, next: Cursor, after: ActorState) {
    && after.highWater == row.highWater && after.resumeCursor == next && !after.lastScanComplete
    && after.pendingHighWater == (if row.pendingHighWater == "" then newest else row.pendingHighWater)
    && after.lastCandidateCount == count && after.lastError == None
  }

  lemma AdvanceRecords(row: ActorState, r: ScanReport, count: nat, error: string)
    ensures Recorded(row, r, count, error, Advance(row, r, count, error))
  {
  }

  type Actor = string

  class IntakeStateStore {
    var rows: map<Actor, ActorState>

    constructor ()
      ensures rows == map[]
    {
      rows := map[];
    }

    function StateOf(actor: Actor): ActorState
      reads this
    {
      if actor in rows then rows[actor] else NEW_ACTOR
    }

    method RecordScan(actor: Actor, newest: Uri, count: nat, complete: bool, cursor: Cursor)
      modifies this
      ensures rows == old(rows)[actor := AfterScan(old(StateOf(actor)), newest, count, complete, cursor)]
      ensures complete ==> Completed(old(StateOf(actor)), newest, count, rows[actor])
      ensures !complete ==> Continued(old(StateOf(actor)), newest, count, cursor, rows[actor])
    {
      var current := StateOf(actor);
      var highWater := if complete && newest != "" then newest else current.highWater;
      var pending := if complete then ""
                     else if current.pendingHighWater != "" then current.pendingHighWater else newest;
      var stored := if complete then NoCursor else cursor;
      rows := rows[actor := ActorState(highWater, pending, stored, complete, count, None)];
    }

    method RecordError(actor: Actor, error: string)
      modifies this
      ensures rows == old(rows)[actor := AfterError(old(StateOf(actor)), error)]
      ensures rows[actor] == old(StateOf(actor)).(lastScanComplete := false, lastError := Some(error))
    {
      if actor in rows {
        rows := rows[actor := rows[actor].(lastScanComplete := false, lastError := Some(error))];
      } else {
        rows := rows[actor := ActorState("", "", NoCursor, false, 0, Some(error))];
      }
    }

    /** One turn of the actor loop: read the row, scan, then record the scan or its error. */
    method ScanActor(
      actor: Actor, ghost posts: seq<FeedItem>, replies: seq<Reply>,
      maxPages: int, maxCandidates: Option<int>, error: string)
      returns (ghost report: Option<ScanReport>, scanned: seq<FeedItem>, emitted: seq<Image>)
      requires |replies| >= maxPages
      requires ServedBy(posts, Start(posts, StateOf(actor).resumeCursor), replies)
      modifies this
      ensures report == None <==> maxPages < 1 || (maxCandidates.Some? && maxCandidates.value <= 0)
      ensures report == None ==> rows == old(rows)
      ensures report.Some? ==>
        var row, r := old(StateOf(actor)), report.value;
        var start := Start(posts, row.resumeCursor);
        && r.limit == maxCandidates && Explains(posts, start, row.highWater, row.pendingHighWater, r)
        && Walked(posts, start, row.highWater, scanned) && |scanned| == start - r.lo
        && Emits(posts, start, maxCandidates, r.lo, Some(r.end), emitted)
        && rows == old(rows)[actor := Advance(row, r, |emitted|, error)]
        && Recorded(row, r, |emitted|, error, rows[actor])
    {
      var row := StateOf(actor);
      var progress := new AuthorScanProgress(row.pendingHighWater);
      var end;
      end, scanned, emitted := IterAuthorImageCandidates(
        posts, replies, row.resumeCursor, row.highWater, maxPages, maxCandidates, progress);
      if end == None {
        return None, scanned, emitted;
      }
      report := Some(ScanReport(maxCandidates, Start(posts, row.resumeCursor) - |scanned|, end.value,
                                progress.newestPostUri, progress.nextCursor));
      if end == Some(ApiError) {
        RecordError(actor, error);
      } else {
        var complete := row.highWater == "" || progress.reachedHighWater
                        || progress.feedExhausted || progress.candidateLimitReached;
        RecordScan(actor, progress.newestPostUri, |emitted|, complete, progress.nextCursor);
      }
      assert rows == old(rows)[actor := Advance(row, report.value, |emitted|, error)];
      AdvanceRecords(row, report.value, |emitted|, error);
    }
  }
}
