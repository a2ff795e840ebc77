/** `LoadImagesDataClass`: each step fetches one page of image metadata,
    queues its hashes, then drains the queue in batches of at most sixty,
    feeding the returned view counts to the tracker and the counts. */
module Images {
  import opened Wrappers
  import opened Records
  import opened Cache
  import TopN
  import Views

  const IMAGES_PER_PAGE_FETCH := 60
  const REFRESH_PAGES := 4
  const BATCH_SIZE := 60

  /** A page of image metadata: the account's image count (0 when the page
      has none) and the hashes on the page, in order. */
  datatype MetaPage = MetaPage(count: int, hashes: seq<string>)

  /** The hashes of all batches, in order. */
  function Concat(bs: seq<seq<string>>): seq<string>
  {
    if bs == [] then [] else Concat(bs[..|bs| - 1]) + bs[|bs| - 1]
  }

  /** The view replies to the first `n` batches. */
  function Replies(stats: nat -> Option<seq<Entry>>, n: nat): (r: seq<seq<Entry>>)
    ensures |r| == n
  {
    if n == 0 then []
    else Replies(stats, n - 1) + [if stats(n - 1).Some? then stats(n - 1).value else []]
  }

  /** Reply `b` is the `b`-th row, whatever the rows after it. */
  lemma {:induction false} RepliesAt(stats: nat -> Option<seq<Entry>>, n: nat, b: nat)
    requires b < n && stats(b).Some?
    ensures Replies(stats, n)[b] == stats(b).value
  {
    if b < n - 1 {
      RepliesAt(stats, n - 1, b);
    }
  }

  /** Batches as `_fetchStep` cuts them: none empty, none above sixty, and
      every one but the last full. */
  predicate WellCut(batches: seq<seq<string>>)
  {
    && (forall b :: 0 <= b < |batches| ==> 0 < |batches[b]| <= BATCH_SIZE)
    && (forall b :: 0 <= b < |batches| - 1 ==> |batches[b]| == BATCH_SIZE)
  }

  class ImageLoader {
    var username: string
    var merge: bool
    var runningCount: nat
    var totalCount: int
    var hashQueue: seq<string>
    const top100: TopN.Top100Tracker
    const imgViews: Views.ImgViews

    /** The counts were initialised for this user, whose total is loaded in
        the ledger. */
    predicate Linked()
      reads this`username, top100, imgViews, imgViews.ledger
    {
      top100.username == username && imgViews.username == username
      && username in imgViews.ledger.sums
    }

    constructor (username: string, merge: bool, top100: TopN.Top100Tracker, imgViews: Views.ImgViews)
      ensures this.username == username && this.merge == merge
      ensures this.top100 == top100 && this.imgViews == imgViews
      ensures runningCount == 0 && totalCount == 0 && hashQueue == []
    {
      this.username := username;
      this.merge := merge;
      this.top100 := top100;
      this.imgViews := imgViews;
      runningCount := 0;
      totalCount := 0;
      hashQueue := [];
    }

    /** The part of `_init` after the base class: when merging, every hash
        of the compacted tracker list is queued, best first. */
    method SeedQueue()
      modifies this, top100
      ensures var seeded := merge && old(top100.inited) && old(top100.data) != [];
              && (seeded ==> top100.State() == TopN.Compacted(old(top100.State()))
                             && hashQueue == old(hashQueue) + TopN.Hashes(top100.data))
              && (!seeded ==> top100.State() == old(top100.State()) && hashQueue == old(hashQueue))
      ensures username == old(username) && merge == old(merge)
      ensures runningCount == old(runningCount) && totalCount == old(totalCount)
      ensures top100.isPrimary == old(top100.isPrimary) && top100.inited == old(top100.inited)
    {
      if merge {
        var hashs := top100.GetHashs();
        if |hashs| > 0 {
          hashQueue := hashQueue + hashs;
        }
      }
    }

    /** `_process_meta_step1_response_json`: the total to expect, then
        every hash of the page queued in order. */
    method ProcessMeta(page: MetaPage)
      modifies this
      ensures hashQueue == old(hashQueue) + page.hashes
      ensures totalCount == if merge then REFRESH_PAGES * IMAGES_PER_PAGE_FETCH + TopN.TOP_N_SAVE_SIZE
                            else if page.count > old(totalCount) then page.count else old(totalCount)
      ensures username == old(username) && merge == old(merge) && runningCount == old(runningCount)
    {
      if !merge {
        totalCount := if page.count > totalCount then page.count else totalCount;
      } else {
        totalCount := REFRESH_PAGES * IMAGES_PER_PAGE_FETCH + TopN.TOP_N_SAVE_SIZE;
      }
      ghost var q0, t := hashQueue, totalCount;
      for i := 0 to |page.hashes|
        invariant hashQueue == q0 + page.hashes[..i]
        invariant username == old(username) && merge == old(merge) && runningCount == old(runningCount)
        invariant totalCount == t
      {
        assert page.hashes[..i + 1] == page.hashes[..i] + [page.hashes[i]];
        hashQueue := hashQueue + [page.hashes[i]];
      }
      assert page.hashes[..|page.hashes|] == page.hashes;
    }

    /** `_process_image_stats_step2_response_json`: one reply goes to the
        tracker as one row and to the counts; the applied entries are
        counted. */
    method ProcessStats(reply: seq<Entry>)
      requires Linked()
      modifies this, top100, imgViews, imgViews.ledger
      ensures Linked()
      ensures !old(top100.isPrimary) ==> top100.State() == old(top100.State())
      ensures old(top100.isPrimary) ==> top100.State() == TopN.AddRows(old(top100.State()), [reply])
      ensures imgViews.views == Views.ApplyAll(old(imgViews.views), Views.Flatten([reply])).0
      ensures runningCount - old(runningCount) == Views.ApplyAll(old(imgViews.views), Views.Flatten([reply])).1
      ensures imgViews.Offset() == old(imgViews.Offset())
      ensures top100.isPrimary == old(top100.isPrimary)
      ensures username == old(username) && merge == old(merge)
      ensures hashQueue == old(hashQueue) && totalCount == old(totalCount)
    {
      top100.AddHashes([reply]);
      var processed := imgViews.AddHashes([reply]);
      runningCount := runningCount + processed;
    }

    /** The second half of `_fetchStep`: while hashes are queued and the
        user has not cancelled (`cancel(b)` is the flag seen before batch
        `b`), the first sixty (or fewer) leave the queue and their reply,
        `stats(b)`, is processed; a failed reply ends the step. */
    method DrainQueue(ghost s: Snapshot, stats: nat -> Option<seq<Entry>>, cancel: nat -> bool)
        returns (success: bool, batches: seq<seq<string>>)
      requires Draining(s, stats, [], 0)
      modifies this, top100, imgViews, imgViews.ledger
      ensures success ==> hashQueue == [] || cancel(|batches|)
      ensures !success ==> |batches| > 0 && stats(|batches| - 1).None?
      ensures success ==> Draining(s, stats, batches, |batches|)
      ensures !success ==> Draining(s, stats, batches, |batches| - 1)
      ensures forall b :: 0 <= b < |batches| ==> !cancel(b)
    {
      batches := [];
      while hashQueue != [] && !cancel(|batches|)
        invariant Draining(s, stats, batches, |batches|)
        invariant forall b :: 0 <= b < |batches| ==> !cancel(b)
        decreases |hashQueue|
      {
        var batch, ok := Round(s, stats, batches);
        batches := batches + [batch];
        if !ok {
          return false, batches;
        }
      }
      success := true;
    }

    /** One pass of the loop of `_fetchStep`: a batch leaves the queue and,
        when its reply came back, the reply is processed. */
    method Round(ghost s: Snapshot, stats: nat -> Option<seq<Entry>>, batches: seq<seq<string>>)
        returns (batch: seq<string>, ok: bool)
      requires Draining(s, stats, batches, |batches|) && hashQueue != []
      modifies this, top100, imgViews, imgViews.ledger
      ensures ok == stats(|batches|).Some?
      ensures ok ==> Draining(s, stats, batches + [batch], |batches| + 1)
      ensures !ok ==> Draining(s, stats, batches + [batch], |batches|)
      ensures |hashQueue| < old(|hashQueue|)
    {
      ghost var rest := hashQueue;
      batch := TakeBatch(s.top, s.primary, s.views, s.count, stats, |batches|);
      CutStep(s.queue, batches, rest, batch, hashQueue);
      if stats(|batches|).None? {
        return batch, false;
      }
      FeedReply(s.top, s.primary, s.views, s.count, stats, |batches|);
      ok := true;
    }

    /** The loop state of `_fetchStep`, against the state `s` it started
        from: the queue cut into `batches`, the first `k` replies fed. */
    ghost predicate Draining(s: Snapshot, stats: nat -> Option<seq<Entry>>, batches: seq<seq<string>>, k: nat)
      reads this, top100, imgViews, imgViews.ledger
    {
      && Linked() && imgViews.Offset() == s.offset
      && Cut(s.queue, batches, hashQueue)
      && Fed(s.top, s.primary, s.views, s.count, stats, k)
      && username == s.username && merge == s.merge && totalCount == s.total
    }

    /** The first sixty queued hashes (or all, when fewer) leave the queue. */
    method TakeBatch(ghost t0: TopN.TopState, ghost p0: bool, ghost v0: map<string, int>, ghost rc0: int,
                     ghost stats: nat -> Option<seq<Entry>>, ghost k: nat) returns (batch: seq<string>)
      requires hashQueue != [] && Linked() && Fed(t0, p0, v0, rc0, stats, k)
      modifies this
      ensures Linked() && Fed(t0, p0, v0, rc0, stats, k)
      ensures batch + hashQueue == old(hashQueue)
      ensures 0 < |batch| <= BATCH_SIZE && (|batch| < BATCH_SIZE ==> hashQueue == [])
      ensures username == old(username) && merge == old(merge)
      ensures runningCount == old(runningCount) && totalCount == old(totalCount)
    {
      var n := if |hashQueue| < BATCH_SIZE then |hashQueue| else BATCH_SIZE;
      batch := hashQueue[..n];
      assert hashQueue == batch + hashQueue[n..];
      hashQueue := hashQueue[n..];
    }

    /** Replies `0 .. k - 1` all came back and went to the tracker (when
        its user is the logged-in one) and to the counts, which were `t0`,
        `v0` and `rc0` before. */
    ghost predicate Fed(t0: TopN.TopState, p0: bool, v0: map<string, int>, rc0: int,
                        stats: nat -> Option<seq<Entry>>, k: nat)
      reads this`runningCount, top100, imgViews
    {
      && (forall b :: 0 <= b < k ==> stats(b).Some?)
      && top100.isPrimary == p0
      && (!p0 ==> top100.State() == t0)
      && (p0 ==> top100.State() == TopN.AddRows(t0, Replies(stats, k)))
      && imgViews.views == Views.ApplyAll(v0, Views.Flatten(Replies(stats, k))).0
      && runningCount - rc0 == Views.ApplyAll(v0, Views.Flatten(Replies(stats, k))).1
    }

    /** Reply `k` is processed. */
    method FeedReply(ghost t0: TopN.TopState, ghost p0: bool, ghost v0: map<string, int>, ghost rc0: int,
                     stats: nat -> Option<seq<Entry>>, k: nat)
      requires Linked() && Fed(t0, p0, v0, rc0, stats, k) && stats(k).Some?
      modifies this, top100, imgViews, imgViews.ledger
      ensures Linked() && Fed(t0, p0, v0, rc0, stats, k + 1)
      ensures imgViews.Offset() == old(imgViews.Offset())
      ensures username == old(username) && merge == old(merge)
      ensures hashQueue == old(hashQueue) && totalCount == old(totalCount)
    {
      ghost var rs := Replies(stats, k);
      var reply := stats(k).value;
      StepState(stats, k);
      Views.ApplyAllConcat(v0, Views.Flatten(rs), reply);
      TopN.AddRowsConcat(t0, rs, [reply]);
      OneRow(reply);
      ProcessStats(reply);
    }

    /** `_fetchStep`: a failed metadata fetch, or a queue still empty after
        the page was queued, ends the session; otherwise the queue is
        drained. */
    method FetchStep(meta: Option<MetaPage>, stats: nat -> Option<seq<Entry>>, cancel: nat -> bool)
        returns (success: bool, batches: seq<seq<string>>)
      requires Linked()
      modifies this, top100, imgViews, imgViews.ledger
      ensures Linked()
      ensures meta.None? ==> !success && batches == [] && hashQueue == old(hashQueue)
                             && totalCount == old(totalCount) && runningCount == old(runningCount)
      ensures meta.Some? ==>
                var queued := old(hashQueue) + meta.value.hashes;
                && (queued == [] ==> !success && batches == [])
                && Concat(batches) + hashQueue == queued
                && WellCut(batches)
                && (success ==> hashQueue == [] || cancel(|batches|))
                && (queued != [] && !success ==> batches != [] && stats(|batches| - 1).None?)
      ensures forall b :: 0 <= b < |batches| ==> !cancel(b)
      ensures Fed(old(top100.State()), old(top100.isPrimary), old(imgViews.views), old(runningCount), stats,
                  if success then |batches| else if batches == [] then 0 else |batches| - 1)
      ensures meta.Some? ==>
                totalCount == if merge then REFRESH_PAGES * IMAGES_PER_PAGE_FETCH + TopN.TOP_N_SAVE_SIZE
                              else if meta.value.count > old(totalCount) then meta.value.count else old(totalCount)
      ensures imgViews.Offset() == old(imgViews.Offset())
      ensures username == old(username) && merge == old(merge)
    {
      if meta.None? {
        return false, [];
      }
      ProcessMeta(meta.value);
      if |hashQueue| == 0 {
        return false, [];
      }
      ghost var s := Snapshot(top100.State(), top100.isPrimary, imgViews.views, runningCount,
                              hashQueue, imgViews.Offset(), username, merge, totalCount);
      success, batches := DrainQueue(s, stats, cancel);
    }

    /** `_saveData`: nothing after a cancel; otherwise the counts and the
        tracker are saved. */
    method SaveData(cache: WebCache, cancelLoad: bool, subscribed: bool, now: string)
      requires Linked()
      modifies top100, imgViews, cache
      ensures cancelLoad ==> cache.entries == old(cache.entries)
      ensures !cancelLoad ==>
                && cache.entries == TopN.TrackerSaved(
                     Views.ViewsSaved(old(cache.entries), username, old(imgViews.views), imgViews.ledger.sums, now),
                     username, old(top100.State()), old(top100.inited), old(top100.isPrimary), subscribed, now)
                && cache.Saved(username, IMGVIEWS) == ViewsMap(old(imgViews.views))
                && imgViews.views == map[] && !imgViews.inited
      ensures !cancelLoad && old(top100.inited) && (old(top100.isPrimary) || subscribed) ==>
                top100.State() == TopN.Compacted(old(top100.State()))
      ensures cancelLoad || !old(top100.inited) || (!old(top100.isPrimary) && !subscribed) ==>
                top100.State() == old(top100.State())
      ensures hashQueue == old(hashQueue) && runningCount == old(runningCount)
    {
      if cancelLoad {
        return;
      }
      CacheKeyDistinct(username, IMGVIEWS, LASTMODIMAGES);
      CacheKeyDistinct(username, IMGVIEWS, VIEWSSUM);
      CacheKeyDistinct(username, IMGVIEWS, TOPVIEWS);
      CacheKeyDistinct(username, IMGVIEWS, LASTMODTOPVIEWS);
      imgViews.Save(cache, cancelLoad, now);
      top100.Save(cache, subscribed, cancelLoad, now);
    }
  }

  /** The state `DrainQueue` starts from. */
  datatype Snapshot = Snapshot(top: TopN.TopState, primary: bool, views: map<string, int>, count: int,
                               queue: seq<string>, offset: int, username: string, merge: bool, total: int)

  /** The queue `q0` was cut into `batches` with `rest` left over. */
  ghost predicate Cut(q0: seq<string>, batches: seq<seq<string>>, rest: seq<string>)
  {
    && Concat(batches) + rest == q0
    && WellCut(batches)
    && (rest != [] ==> forall b :: 0 <= b < |batches| ==> |batches[b]| == BATCH_SIZE)
  }

  /** Taking the next batch keeps the cut. */
  lemma CutStep(q0: seq<string>, batches: seq<seq<string>>, rest: seq<string>, batch: seq<string>, rest': seq<string>)
    requires Cut(q0, batches, rest) && rest != []
    requires batch + rest' == rest
    requires 0 < |batch| <= BATCH_SIZE && (|batch| < BATCH_SIZE ==> rest' == [])
    ensures Cut(q0, batches + [batch], rest')
  {
    assert (batches + [batch])[..|batches|] == batches;
  }

  /** A reply wrapped as a single row, as `addHashes` wraps it. */
  lemma OneRow(reply: seq<Entry>)
    ensures Views.Flatten([reply]) == reply
  {
    assert [reply][..0] == [];
  }

  /** Processing one more reply extends both folds by that reply. */
  lemma StepState(stats: nat -> Option<seq<Entry>>, n: nat)
    requires stats(n).Some?
    ensures Replies(stats, n + 1) == Replies(stats, n) + [stats(n).value]
    ensures Views.Flatten(Replies(stats, n + 1)) == Views.Flatten(Replies(stats, n)) + stats(n).value
  {
    assert Replies(stats, n + 1)[..n] == Replies(stats, n);
  }
}
