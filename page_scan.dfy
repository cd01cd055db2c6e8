/** The batch scan that `POST /api/extract-criteria` runs over a PDF's text
    layer before it decides whether the text is good enough.

    Pages are fetched in batches of ten, up to a cap of fifty pages. When one
    batch's own text names both an inclusion (or eligibility) section and an
    exclusion section, the scan fetches at most two more full batches and
    stops. The document is an oracle: `pages[n - 1]` is the text of page `n`,
    or `None` when fetching that page or its text content threw.

    `Schedule` and `FetchedCount` state the scan in closed form; `ScanPages`
    is the loop the handler runs, proved to fetch exactly that. */
module PageScan {
  import opened Wrappers
  import opened Text

  const BatchSize: nat := 10
  const PageCap: nat := 50
  const ExtraBatchLimit: nat := 2

  /** One fetched page, as the handler's `allPages` array holds it. */
  datatype Page = Page(pageNum: nat, text: string)

  /** An inclusive range of page numbers fetched together. */
  datatype Batch = Batch(first: nat, last: nat)

  function Min(a: int, b: int): int {
    if a <= b then a else b
  }

  /** A page that could not be read contributes the empty text. */
  function PageText(pages: seq<Option<string>>, n: nat): string
    requires 1 <= n <= |pages|
  {
    match pages[n - 1]
    case Some(t) => t
    case None => ""
  }

  /** The pages `first..last` in order (empty when `first == last + 1`). */
  function FetchRange(pages: seq<Option<string>>, first: nat, last: nat): seq<Page>
    requires 1 <= first <= last + 1 && last <= |pages|
  {
    seq(last + 1 - first, k requires 0 <= k < last + 1 - first =>
      Page(first + k, PageText(pages, first + k)))
  }

  lemma FetchRangeSplit(pages: seq<Option<string>>, first: nat, mid: nat, last: nat)
    requires 1 <= first <= mid + 1 <= last + 1 && last <= |pages|
    ensures FetchRange(pages, first, mid) + FetchRange(pages, mid + 1, last)
            == FetchRange(pages, first, last)
  {
  }

  /** Entry k of a fetched range is page `first + k`. */
  lemma FetchRangeNumbers(pages: seq<Option<string>>, first: nat, last: nat)
    requires 1 <= first <= last + 1 && last <= |pages|
    ensures forall k :: 0 <= k < |FetchRange(pages, first, last)| ==>
              FetchRange(pages, first, last)[k].pageNum == first + k
  {
  }

  // ---------------------------------------------------------------------
  // The keyword test on one batch

  /** The batch's page texts, each lower-cased, joined by one space. */
  function BatchText(results: seq<Page>): string {
    Join(seq(|results|, k requires 0 <= k < |results| => Lower(results[k].text)), " ")
  }

  predicate FoundBothSections(batchText: string) {
    && (Contains(batchText, "inclusion criteria") || Contains(batchText, "eligibility criteria"))
    && Contains(batchText, "exclusion criteria")
  }

  // ---------------------------------------------------------------------
  // The schedule in closed form

  /** `maxPages`: the main loop never goes past page 50. */
  function ScanLimit(numPages: nat): nat {
    Min(numPages, PageCap)
  }

  /** How many batches the main loop has room for. */
  function MainBatchTotal(numPages: nat): nat {
    (ScanLimit(numPages) + BatchSize - 1) / BatchSize
  }

  /** Main batch `j` (from 0) starts at page 1 + 10j and ends ten pages on,
      or at the scan limit. */
  function MainBatch(numPages: nat, j: nat): (b: Batch)
    requires j < MainBatchTotal(numPages)
    ensures 1 <= b.first <= b.last <= ScanLimit(numPages)
  {
    Batch(1 + BatchSize * j, Min(BatchSize * (j + 1), ScanLimit(numPages)))
  }

  /** Main batch `j`'s own text names both sections. */
  predicate BatchHit(pages: seq<Option<string>>, j: nat)
    requires j < MainBatchTotal(|pages|)
  {
    var b := MainBatch(|pages|, j);
    FoundBothSections(BatchText(FetchRange(pages, b.first, b.last)))
  }

  /** For each main batch, whether its own text names both sections. */
  function HitFlags(pages: seq<Option<string>>): (hits: seq<bool>)
    ensures |hits| == MainBatchTotal(|pages|)
  {
    seq(MainBatchTotal(|pages|), j requires 0 <= j < MainBatchTotal(|pages|) => BatchHit(pages, j))
  }

  /** The first index at or after `j` whose flag is set. */
  function FirstTrueFrom(hits: seq<bool>, j: nat): (h: Option<nat>)
    requires j <= |hits|
    ensures h.Some? ==> j <= h.value < |hits|
    decreases |hits| - j
  {
    if j == |hits| then None
    else if hits[j] then Some(j)
    else FirstTrueFrom(hits, j + 1)
  }

  /** The search finds a set flag with none set before it from `j` on; or
      it finds nothing, and no flag from `j` on is set. */
  lemma {:induction false} FirstTrueFromSpec(hits: seq<bool>, j: nat)
    requires j <= |hits|
    ensures var h := FirstTrueFrom(hits, j);
      && (h.Some? ==> hits[h.value] && forall k :: j <= k < h.value ==> !hits[k])
      && (h.None? ==> forall k :: j <= k < |hits| ==> !hits[k])
    decreases |hits| - j
  {
    if j < |hits| && !hits[j] {
      FirstTrueFromSpec(hits, j + 1);
    }
  }

  /** The main batch at which the scan stops early, if any. */
  function FirstHit(pages: seq<Option<string>>): (h: Option<nat>)
    ensures h.Some? ==> h.value < MainBatchTotal(|pages|)
  {
    FirstTrueFrom(HitFlags(pages), 0)
  }

  /** The first `n` main batches. */
  function MainPrefix(numPages: nat, n: nat): seq<Batch>
    requires n <= MainBatchTotal(numPages)
  {
    seq(n, j requires 0 <= j < n => MainBatch(numPages, j))
  }

  /** How many overscan batches follow a hit whose batch ends at `end`: at
      most two, and only as many full batches as fit inside the document. */
  function ExtraCount(end: nat, numPages: nat): nat
    requires end <= numPages
  {
    Min(ExtraBatchLimit, (numPages - end) / BatchSize)
  }

  function ExtraBatches(end: nat, numPages: nat): seq<Batch>
    requires end <= numPages
  {
    seq(ExtraCount(end, numPages), i requires 0 <= i < ExtraCount(end, numPages) =>
      Batch(end + 1 + BatchSize * i, end + BatchSize * (i + 1)))
  }

  /** The batches fetched from a document of `numPages` pages when the scan
      stops early at main batch `hit` (or never, for `None`). */
  function ScheduleFor(numPages: nat, hit: Option<nat>): seq<Batch>
    requires hit.Some? ==> hit.value < MainBatchTotal(numPages)
  {
    match hit
    case None => MainPrefix(numPages, MainBatchTotal(numPages))
    case Some(j) =>
      MainPrefix(numPages, j + 1) + ExtraBatches(MainBatch(numPages, j).last, numPages)
  }

  /** The number of the last page fetched in that case. */
  function FetchedCountFor(numPages: nat, hit: Option<nat>): nat
    requires hit.Some? ==> hit.value < MainBatchTotal(numPages)
  {
    match hit
    case None => ScanLimit(numPages)
    case Some(j) =>
      var end := MainBatch(numPages, j).last;
      end + BatchSize * ExtraCount(end, numPages)
  }

  /** Every batch the scan fetches, in the order it fetches them. */
  function Schedule(pages: seq<Option<string>>): seq<Batch> {
    ScheduleFor(|pages|, FirstHit(pages))
  }

  /** The number of the last page the scan fetches. */
  function FetchedCount(pages: seq<Option<string>>): nat {
    FetchedCountFor(|pages|, FirstHit(pages))
  }

  // ---------------------------------------------------------------------
  // Batches that tile a page range

  /** `bs` tile `lo..hi`: the last batch is non-empty and ends at `hi`, and
      the batches before it tile the pages before it; no batches tile only
      the empty range. So each page of `lo..hi` lies in exactly one batch,
      and the batches come in page order. */
  ghost predicate Tiles(bs: seq<Batch>, lo: nat, hi: int)
    decreases |bs|
  {
    && lo <= hi + 1
    && if bs == [] then hi + 1 == lo
       else
         var b := bs[|bs| - 1];
         lo <= b.first <= b.last && b.last == hi && Tiles(bs[..|bs| - 1], lo, b.first - 1)
  }

  lemma TilesSnoc(bs: seq<Batch>, b: Batch, lo: nat)
    requires lo <= b.first <= b.last && Tiles(bs, lo, b.first - 1)
    ensures Tiles(bs + [b], lo, b.last)
  {
    assert (bs + [b])[..|bs|] == bs;
  }

  lemma {:induction false} TilesAppend(a: seq<Batch>, b: seq<Batch>, lo: nat, mid: int, hi: int)
    requires Tiles(a, lo, mid) && Tiles(b, mid + 1, hi)
    ensures Tiles(a + b, lo, hi)
    decreases |b|
  {
    if b == [] {
      assert a + b == a;
    } else {
      var last := b[|b| - 1];
      var init := b[..|b| - 1];
      TilesAppend(a, init, lo, mid, last.first - 1);
      var ab := a + b;
      assert ab[..|ab| - 1] == a + init;
      assert ab[|ab| - 1] == last;
    }
  }

  /** Every batch lies within the document (empty batches allowed). */
  ghost predicate InDocument(pages: seq<Option<string>>, bs: seq<Batch>)
    decreases |bs|
  {
    || bs == []
    || (var b := bs[|bs| - 1];
        && 1 <= b.first <= b.last + 1 && b.last <= |pages|
        && InDocument(pages, bs[..|bs| - 1]))
  }

  lemma {:induction false} TilesInDocument(pages: seq<Option<string>>, bs: seq<Batch>, lo: nat, hi: int)
    requires 1 <= lo && hi <= |pages| && Tiles(bs, lo, hi)
    ensures InDocument(pages, bs)
    decreases |bs|
  {
    if bs != [] {
      TilesInDocument(pages, bs[..|bs| - 1], lo, bs[|bs| - 1].first - 1);
    }
  }

  /** The pages of the batches `bs`, batch after batch (the `allPages`
      array after each batch has been pushed). */
  function FetchAll(pages: seq<Option<string>>, bs: seq<Batch>): seq<Page>
    requires InDocument(pages, bs)
    decreases |bs|
  {
    if bs == [] then []
    else
      var b := bs[|bs| - 1];
      FetchAll(pages, bs[..|bs| - 1]) + FetchRange(pages, b.first, b.last)
  }

  /** Fetching batches that tile `lo..hi` fetches each of those pages once,
      in page order. */
  lemma {:induction false} FetchAllOfTiles(pages: seq<Option<string>>, bs: seq<Batch>, lo: nat, hi: int)
    requires 1 <= lo && hi <= |pages| && Tiles(bs, lo, hi)
    ensures InDocument(pages, bs)
    ensures FetchAll(pages, bs) == FetchRange(pages, lo, hi)
    decreases |bs|
  {
    TilesInDocument(pages, bs, lo, hi);
    if bs != [] {
      var b := bs[|bs| - 1];
      var init := bs[..|bs| - 1];
      FetchAllOfTiles(pages, init, lo, b.first - 1);
      assert FetchAll(pages, bs) == FetchAll(pages, init) + FetchRange(pages, b.first, hi);
      FetchRangeSplit(pages, lo, b.first - 1, hi);
    }
  }

  // ---------------------------------------------------------------------
  // What the closed form says

  /** Main batch `j` starts at 1 + 10j and covers up to ten pages, never past
      the 50-page limit. */
  lemma MainBatchShape(numPages: nat, n: nat)
    requires n <= MainBatchTotal(numPages)
    ensures forall j :: 0 <= j < n ==>
              && MainPrefix(numPages, n)[j].first == 1 + BatchSize * j
              && MainPrefix(numPages, n)[j].last == Min(MainPrefix(numPages, n)[j].first + BatchSize - 1, ScanLimit(numPages))
  {
  }

  lemma MainPrefixSnoc(numPages: nat, n: nat)
    requires n < MainBatchTotal(numPages)
    ensures MainPrefix(numPages, n + 1) == MainPrefix(numPages, n) + [MainBatch(numPages, n)]
  {
  }

  /** The first `n` main batches tile the pages up to the end of batch
      `n - 1`, each starting right after the one before it. */
  lemma {:induction false} MainPrefixTiles(numPages: nat, n: nat)
    requires n <= MainBatchTotal(numPages)
    ensures Tiles(MainPrefix(numPages, n), 1, if n == 0 then 0 else MainBatch(numPages, n - 1).last)
  {
    if n > 0 {
      var b := MainBatch(numPages, n - 1);
      MainPrefixTiles(numPages, n - 1);
      assert BatchSize * (n - 1) < ScanLimit(numPages);
      MainPrefixSnoc(numPages, n - 1);
      TilesSnoc(MainPrefix(numPages, n - 1), b, 1);
    }
  }

  /** When no batch names both sections, the main batches cover exactly
      1..min(numPages, 50). */
  lemma MainBatchesTileScanLimit(numPages: nat)
    ensures Tiles(MainPrefix(numPages, MainBatchTotal(numPages)), 1, ScanLimit(numPages))
  {
    var n := MainBatchTotal(numPages);
    MainPrefixTiles(numPages, n);
    if n > 0 {
      assert BatchSize * n >= ScanLimit(numPages);
    }
  }

  /** The scan stops early exactly when some main batch's own text names both
      sections, and it stops at the first such batch. */
  lemma StopsEarlyIff(pages: seq<Option<string>>)
    ensures FirstHit(pages).Some? <==> exists j :: 0 <= j < MainBatchTotal(|pages|) && BatchHit(pages, j)
    ensures FirstHit(pages).Some? ==>
              && BatchHit(pages, FirstHit(pages).value)
              && forall k :: 0 <= k < FirstHit(pages).value ==> !BatchHit(pages, k)
  {
    var flags := HitFlags(pages);
    FirstTrueFromSpec(flags, 0);
    assert forall k :: 0 <= k < |flags| ==> flags[k] == BatchHit(pages, k);
  }

  /** Overscan: at most two batches, each a full ten pages, the i-th one
      right after the hit batch and 10i pages on, never past the document's
      last page; and an overscan batch is left out only when it would not
      fit in full. */
  lemma ExtraBatchesShape(end: nat, numPages: nat)
    requires end <= numPages
    ensures var x := ExtraBatches(end, numPages);
      && |x| <= ExtraBatchLimit
      && (forall i :: 0 <= i < |x| ==>
            && x[i].first == end + 1 + BatchSize * i
            && x[i].last == x[i].first + BatchSize - 1
            && x[i].last <= numPages)
      && (|x| < ExtraBatchLimit ==> end + BatchSize * (|x| + 1) > numPages)
      && Tiles(x, end + 1, end + BatchSize * |x|)
  {
    var x := ExtraBatches(end, numPages);
    var q := (numPages - end) / BatchSize;
    assert BatchSize * q <= numPages - end < BatchSize * (q + 1);
    forall i | 0 <= i < |x|
      ensures x[i].last <= numPages
    {
      assert i + 1 <= q;
    }
    assert Tiles([], end + 1, end);
    if |x| >= 1 {
      assert x[..1] == [] + [x[0]];
      TilesSnoc([], x[0], end + 1);
    }
    if |x| == 2 {
      assert x == x[..1] + [x[1]];
      TilesSnoc(x[..1], x[1], end + 1);
    }
  }

  /** The scan fetches each of the pages 1..k once, in order, where k is
      the last page fetched; k never passes the document's last page, passes
      the 50-page limit by at most the two overscan batches, and is exactly
      min(numPages, 50) when no batch names both sections. */
  lemma ScheduleForTiles(numPages: nat, hit: Option<nat>)
    requires hit.Some? ==> hit.value < MainBatchTotal(numPages)
    ensures Tiles(ScheduleFor(numPages, hit), 1, FetchedCountFor(numPages, hit))
    ensures FetchedCountFor(numPages, hit) <= Min(numPages, PageCap + ExtraBatchLimit * BatchSize)
    ensures hit.None? ==> FetchedCountFor(numPages, hit) == ScanLimit(numPages)
  {
    match hit
    case None =>
      MainBatchesTileScanLimit(numPages);
    case Some(j) =>
      var end := MainBatch(numPages, j).last;
      var main := MainPrefix(numPages, j + 1);
      var extra := ExtraBatches(end, numPages);
      var k := FetchedCountFor(numPages, hit);
      MainPrefixTiles(numPages, j + 1);
      assert Tiles(main, 1, end);
      ExtraBatchesShape(end, numPages);
      assert k == end + BatchSize * |extra|;
      assert Tiles(extra, end + 1, k);
      TilesAppend(main, extra, 1, end, k);
      assert ScheduleFor(numPages, hit) == main + extra;
      assert k <= numPages by {
        var q := (numPages - end) / BatchSize;
        assert BatchSize * q <= numPages - end;
      }
  }

  lemma ScheduleTilesPrefix(pages: seq<Option<string>>)
    ensures Tiles(Schedule(pages), 1, FetchedCount(pages))
    ensures InDocument(pages, Schedule(pages))
    ensures FetchedCount(pages) <= Min(|pages|, PageCap + ExtraBatchLimit * BatchSize)
    ensures FirstHit(pages).None? ==> FetchedCount(pages) == ScanLimit(|pages|)
  {
    ScheduleForTiles(|pages|, FirstHit(pages));
    TilesInDocument(pages, Schedule(pages), 1, FetchedCount(pages));
  }

  // ---------------------------------------------------------------------
  // The loops the handler runs

  /** One batch: pages `first..last` in order; a page whose fetch throws
      is caught and recorded with the empty text. */
  method FetchBatch(pages: seq<Option<string>>, first: nat, last: nat) returns (results: seq<Page>)
    requires 1 <= first <= last + 1 && last <= |pages|
    ensures results == FetchRange(pages, first, last)
  {
    results := [];
    var pageNum := first;
    while pageNum <= last
      invariant first <= pageNum <= last + 1
      invariant results == FetchRange(pages, first, pageNum - 1)
    {
      var text := match pages[pageNum - 1] case Some(t) => t case None => "";
      assert text == PageText(pages, pageNum);
      assert FetchRange(pages, first, pageNum) == FetchRange(pages, first, pageNum - 1) + [Page(pageNum, text)];
      results := results + [Page(pageNum, text)];
      pageNum := pageNum + 1;
    }
  }

  /** The overscan after a hit batch ending at page `end`: extra batch i
      covers end+1+10i .. min(end+10+10i, numPages) and is fetched while
      i < 2 and end + 10(i+1) <= numPages. */
  method Overscan(pages: seq<Option<string>>, end: nat) returns (results: seq<Page>, ghost extra: seq<Batch>)
    requires end <= |pages|
    ensures extra == ExtraBatches(end, |pages|)
    ensures end + BatchSize * |extra| <= |pages|
    ensures results == FetchRange(pages, end + 1, end + BatchSize * ExtraCount(end, |pages|))
    ensures results == FetchRange(pages, end + 1, end + BatchSize * |extra|)
  {
    var numPages := |pages|;
    results, extra := [], [];
    var i := 0;
    while i < ExtraBatchLimit && end + (i + 1) * BatchSize <= numPages
      invariant 0 <= i <= ExtraCount(end, numPages)
      invariant extra == ExtraBatches(end, numPages)[..i]
      invariant end + BatchSize * i <= numPages
      invariant results == FetchRange(pages, end + 1, end + BatchSize * i)
    {
      var extraStart := end + 1 + i * BatchSize;
      var extraEnd := Min(extraStart + BatchSize - 1, numPages);
      assert Batch(extraStart, extraEnd) == ExtraBatches(end, numPages)[i];
      var extraResults := FetchBatch(pages, extraStart, extraEnd);
      FetchRangeSplit(pages, end + 1, extraStart - 1, extraEnd);
      results := results + extraResults;
      extra := extra + [Batch(extraStart, extraEnd)];
      assert ExtraBatches(end, numPages)[..i + 1] == ExtraBatches(end, numPages)[..i] + [ExtraBatches(end, numPages)[i]];
      i := i + 1;
    }
    assert i == ExtraCount(end, numPages) by {
      var q := (numPages - end) / BatchSize;
      assert BatchSize * q <= numPages - end;
    }
    assert ExtraBatches(end, numPages)[..i] == ExtraBatches(end, numPages);
  }

  /** The flag of main batch `j` is the keyword test on the pages fetched
      for it. */
  lemma HitFlagOfFetched(pages: seq<Option<string>>, j: nat, results: seq<Page>)
    requires j < MainBatchTotal(|pages|)
    requires results == FetchRange(pages, MainBatch(|pages|, j).first, MainBatch(|pages|, j).last)
    ensures HitFlags(pages)[j] <==> FoundBothSections(BatchText(results))
  {
  }

  /** The keyword test the handler runs on a main batch it has fetched. */
  method TestBatch(ghost pages: seq<Option<string>>, ghost j: nat, results: seq<Page>) returns (found: bool)
    requires j < MainBatchTotal(|pages|)
    requires results == FetchRange(pages, MainBatch(|pages|, j).first, MainBatch(|pages|, j).last)
    ensures found == HitFlags(pages)[j]
  {
    var batchText := BatchText(results);
    var foundInclusion := Contains(batchText, "inclusion criteria") || Contains(batchText, "eligibility criteria");
    var foundExclusion := Contains(batchText, "exclusion criteria");
    found := foundInclusion && foundExclusion;
    HitFlagOfFetched(pages, j, results);
  }

  /** What holds at the head of the main loop: the batches so far are the
      first main batches and none of them is a hit, `start` is where the
      next one begins, and the pages so far are 1..min(start - 1, maxPages). */
  ghost predicate MainLoopState(pages: seq<Option<string>>, maxPages: int, start: int,
                                allPages: seq<Page>, batches: seq<Batch>)
  {
    && maxPages == ScanLimit(|pages|)
    && start == 1 + BatchSize * |batches|
    && |batches| <= MainBatchTotal(|pages|)
    && FirstHit(pages) == FirstTrueFrom(HitFlags(pages), |batches|)
    && batches == MainPrefix(|pages|, |batches|)
    && allPages == FetchRange(pages, 1, Min(start - 1, maxPages))
  }

  /** One turn of the main loop: fetch pages start..min(start + 9, maxPages),
      push them and the batch, and run the keyword test on them. Without a
      hit the loop state holds for the next turn; with one, the scan stops
      early at this batch. */
  method MainBatchStep(pages: seq<Option<string>>, start: int, maxPages: int,
                       allPages: seq<Page>, ghost batches: seq<Batch>)
    returns (end: nat, newPages: seq<Page>, ghost newBatches: seq<Batch>, found: bool)
    requires MainLoopState(pages, maxPages, start, allPages, batches) && start <= maxPages
    ensures end == Min(start + BatchSize - 1, maxPages) && newBatches == batches + [Batch(start, end)]
    ensures !found ==> MainLoopState(pages, maxPages, start + BatchSize, newPages, newBatches)
    ensures found ==>
              var j := |batches|;
              && j < MainBatchTotal(|pages|) && end == MainBatch(|pages|, j).last
              && FirstHit(pages) == Some(j)
              && newBatches == MainPrefix(|pages|, j + 1)
              && newPages == FetchRange(pages, 1, end)
  {
    ghost var j := |batches|;
    end := Min(start + BatchSize - 1, maxPages);
    NextMainBatch(pages, maxPages, start, allPages, batches);
    var results := FetchBatch(pages, start, end);
    found := TestBatch(pages, j, results);
    newPages := allPages + results;
    newBatches := batches + [Batch(start, end)];
    MainLoopAdvance(pages, maxPages, start, allPages, batches, end, results);
  }

  /** The batch a turn of the main loop fetches is the next main batch. */
  lemma NextMainBatch(pages: seq<Option<string>>, maxPages: int, start: int,
                      allPages: seq<Page>, batches: seq<Batch>)
    requires MainLoopState(pages, maxPages, start, allPages, batches) && start <= maxPages
    ensures |batches| < MainBatchTotal(|pages|)
    ensures MainBatch(|pages|, |batches|) == Batch(start, Min(start + BatchSize - 1, maxPages))
  {
  }

  /** After a turn that fetched the next main batch: without a hit the loop
      state holds for the next turn; with one, the scan stops early here. */
  lemma MainLoopAdvance(pages: seq<Option<string>>, maxPages: int, start: int,
                        allPages: seq<Page>, batches: seq<Batch>, end: nat, results: seq<Page>)
    requires MainLoopState(pages, maxPages, start, allPages, batches) && start <= maxPages
    requires |batches| < MainBatchTotal(|pages|) && Batch(start, end) == MainBatch(|pages|, |batches|)
    requires results == FetchRange(pages, start, end)
    ensures var j := |batches|; var newPages := allPages + results;
      var newBatches := batches + [Batch(start, end)];
      && newBatches == MainPrefix(|pages|, j + 1)
      && newPages == FetchRange(pages, 1, end)
      && (!HitFlags(pages)[j] ==> MainLoopState(pages, maxPages, start + BatchSize, newPages, newBatches))
      && (HitFlags(pages)[j] ==> FirstHit(pages) == Some(j))
  {
    MainPrefixSnoc(|pages|, |batches|);
    FetchRangeSplit(pages, 1, start - 1, end);
  }

  /** Once the main loop has run out of room without a hit, the batches
      fetched are the whole schedule and the pages those up to the scan
      limit. */
  lemma MainLoopExhausted(pages: seq<Option<string>>, maxPages: int, start: int,
                          allPages: seq<Page>, batches: seq<Batch>)
    requires MainLoopState(pages, maxPages, start, allPages, batches) && start > maxPages
    ensures batches == Schedule(pages)
    ensures allPages == FetchRange(pages, 1, FetchedCount(pages))
  {
    assert FirstHit(pages).None? && FetchedCount(pages) == maxPages;
  }

  /** A hit at main batch `j` fixes the schedule: the main batches up to `j`,
      then the overscan after it; and the pages fetched are those up to the
      end of the hit batch followed by those of the overscan. */
  lemma HitSchedule(pages: seq<Option<string>>, j: nat, end: nat, extra: seq<Batch>)
    requires j < MainBatchTotal(|pages|) && end == MainBatch(|pages|, j).last
    requires FirstHit(pages) == Some(j)
    requires extra == ExtraBatches(end, |pages|) && end + BatchSize * |extra| <= |pages|
    ensures Schedule(pages) == MainPrefix(|pages|, j + 1) + extra
    ensures FetchRange(pages, 1, end) + FetchRange(pages, end + 1, end + BatchSize * |extra|)
            == FetchRange(pages, 1, FetchedCount(pages))
  {
    assert FetchedCount(pages) == end + BatchSize * |extra|;
    FetchRangeSplit(pages, 1, end, end + BatchSize * |extra|);
  }

  /** Fetching the whole schedule, batch after batch, fetches the pages
      1..FetchedCount(pages) in order. */
  lemma ScheduleFetchesPrefix(pages: seq<Option<string>>)
    ensures InDocument(pages, Schedule(pages))
    ensures FetchAll(pages, Schedule(pages)) == FetchRange(pages, 1, FetchedCount(pages))
  {
    ScheduleTilesPrefix(pages);
    FetchAllOfTiles(pages, Schedule(pages), 1, FetchedCount(pages));
  }

  /** The scan: main batches from page 1 in steps of ten up to the 50-page
      limit; after the first batch whose own text names both sections, up to
      two more full batches, then stop. Returns the pages in fetch order,
      which are the pages 1..FetchedCount(pages) in order (so sorting them by
      page number changes nothing, `FetchRangeNumbers`), and the batches
      fetched, whose pages they are (`ScheduleFetchesPrefix`). */
  method ScanPages(pages: seq<Option<string>>) returns (allPages: seq<Page>, ghost batches: seq<Batch>)
    ensures batches == Schedule(pages)
    ensures allPages == FetchRange(pages, 1, FetchedCount(pages))
  {
    var numPages := |pages|;
    var maxPages := Min(numPages, PageCap);
    allPages, batches := [], [];
    var start := 1;
    while start <= maxPages
      invariant MainLoopState(pages, maxPages, start, allPages, batches)
    {
      ghost var j := |batches|;
      var end, found;
      end, allPages, batches, found := MainBatchStep(pages, start, maxPages, allPages, batches);
      if found {
        var extraResults, extra := Overscan(pages, end);
        HitSchedule(pages, j, end, extra);
        allPages := allPages + extraResults;
        batches := batches + extra;
        break;
      }
      start := start + BatchSize;
    }
    if start > maxPages {
      MainLoopExhausted(pages, maxPages, start, allPages, batches);
    }
  }
}
