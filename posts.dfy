/** Fetching a user's posts (`LoadPostDataClass`): every page of posts feeds
    the top-N tracker and the per-image counts (for the logged-in user) and
    adds one flat record per post; at the end the records replace the saved
    ones, or, in merge mode, are reconciled into them. */
module Posts {
  import opened Wrappers
  import opened Records
  import opened Cache
  import TopN
  import Views

  // ---- The merge of `_saveData` ----

  /** Index of the first record with hash `h`. */
  function FindHash(s: seq<PostRecord>, h: string): (r: Option<nat>)
    ensures r.Some? ==> r.value < |s| && s[r.value].hash == h && forall i :: 0 <= i < r.value ==> s[i].hash != h
    ensures r.None? ==> forall i :: 0 <= i < |s| ==> s[i].hash != h
  {
    if s == [] then None
    else if s[0].hash == h then Some(0)
    else
      match FindHash(s[1..], h)
      case None => None
      case Some(j) => Some(j + 1)
  }

  /** One fetched record merged into the stored list: the first stored
      record with its hash is replaced when it differs, and a record with a
      new hash is put in front. */
  function MergeOne(s: seq<PostRecord>, u: PostRecord): seq<PostRecord>
  {
    match FindHash(s, u.hash)
    case Some(j) => if s[j] != u then s[j := u] else s
    case None => [u] + s
  }

  /** All fetched records merged, in fetch order. */
  function MergeAll(s: seq<PostRecord>, ups: seq<PostRecord>): seq<PostRecord>
  {
    if ups == [] then s else MergeOne(MergeAll(s, ups[..|ups| - 1]), ups[|ups| - 1])
  }

  function HashSet(s: seq<PostRecord>): set<string>
  {
    set i | 0 <= i < |s| :: s[i].hash
  }

  /** Fetched records whose hash is in neither the stored list nor an
      earlier fetched record. */
  function CountFresh(s: seq<PostRecord>, ups: seq<PostRecord>): nat
  {
    if ups == [] then 0
    else
      var init := ups[..|ups| - 1];
      CountFresh(s, init) + (if ups[|ups| - 1].hash in HashSet(s) + HashSet(init) then 0 else 1)
  }

  lemma MergeOneHashes(s: seq<PostRecord>, u: PostRecord)
    ensures HashSet(MergeOne(s, u)) == HashSet(s) + {u.hash}
    ensures |MergeOne(s, u)| == |s| + (if u.hash in HashSet(s) then 0 else 1)
  {
    var r := MergeOne(s, u);
    match FindHash(s, u.hash)
    case Some(j) =>
      forall h | h in HashSet(s) + {u.hash}
        ensures h in HashSet(r)
      {
        if h == u.hash {
          assert r[j].hash == h;
        } else {
          var i :| 0 <= i < |s| && s[i].hash == h;
          assert r[i].hash == h;
        }
      }
      forall h | h in HashSet(r)
        ensures h in HashSet(s) + {u.hash}
      {
        var i :| 0 <= i < |r| && r[i].hash == h;
        if i != j {
          assert s[i].hash == h;
        }
      }
    case None =>
      forall h | h in HashSet(s)
        ensures h in HashSet(r)
      {
        var i :| 0 <= i < |s| && s[i].hash == h;
        assert r[i + 1].hash == h;
      }
      forall h | h in HashSet(r)
        ensures h in HashSet(s) + {u.hash}
      {
        var i :| 0 <= i < |r| && r[i].hash == h;
        if i > 0 {
          assert s[i - 1].hash == h;
        }
      }
      assert r[0].hash == u.hash;
      assert u.hash !in HashSet(s);
  }

  /** The hashes of a list are those of all but its last record, and the
      last one's. */
  lemma HashSetLast(t: seq<PostRecord>)
    requires t != []
    ensures HashSet(t) == HashSet(t[..|t| - 1]) + {t[|t| - 1].hash}
  {
    var s := t[..|t| - 1];
    forall h | h in HashSet(t)
      ensures h in HashSet(s) + {t[|t| - 1].hash}
    {
      var i :| 0 <= i < |t| && t[i].hash == h;
      if i < |s| {
        assert s[i].hash == h;
      }
    }
    forall h | h in HashSet(s)
      ensures h in HashSet(t)
    {
      var i :| 0 <= i < |s| && s[i].hash == h;
      assert t[i].hash == h;
    }
  }

  /** The merge keeps every stored hash and adds every fetched one; the list
      grows by exactly the number of fetched records with a hash not seen
      before. */
  lemma {:induction false} MergeAllShape(s: seq<PostRecord>, ups: seq<PostRecord>)
    ensures HashSet(MergeAll(s, ups)) == HashSet(s) + HashSet(ups)
    ensures |MergeAll(s, ups)| == |s| + CountFresh(s, ups)
  {
    if ups != [] {
      var init := ups[..|ups| - 1];
      var u := ups[|ups| - 1];
      MergeAllShape(s, init);
      MergeOneHashes(MergeAll(s, init), u);
      HashSetLast(ups);
    } else {
      assert HashSet(ups) == {};
    }
  }

  /** The records whose hash is not in `hs`, in order. */
  function Untouched(s: seq<PostRecord>, hs: set<string>): seq<PostRecord>
  {
    if s == [] then []
    else Untouched(s[..|s| - 1], hs) + (if s[|s| - 1].hash in hs then [] else [s[|s| - 1]])
  }

  lemma {:induction false} UntouchedConcat(a: seq<PostRecord>, b: seq<PostRecord>, hs: set<string>)
    ensures Untouched(a + b, hs) == Untouched(a, hs) + Untouched(b, hs)
    decreases |b|
  {
    if b == [] {
      assert a + b == a;
    } else {
      assert (a + b)[..|a + b| - 1] == a + b[..|b| - 1];
      UntouchedConcat(a, b[..|b| - 1], hs);
    }
  }

  lemma MergeOneUntouched(s: seq<PostRecord>, u: PostRecord, hs: set<string>)
    requires u.hash in hs
    ensures Untouched(MergeOne(s, u), hs) == Untouched(s, hs)
  {
    match FindHash(s, u.hash)
    case Some(j) =>
      if s[j] != u {
        var r := s[j := u];
        assert s == s[..j] + [s[j]] + s[j + 1..];
        assert r == s[..j] + [u] + s[j + 1..];
        UntouchedConcat(s[..j] + [s[j]], s[j + 1..], hs);
        UntouchedConcat(s[..j], [s[j]], hs);
        UntouchedConcat(s[..j] + [u], s[j + 1..], hs);
        UntouchedConcat(s[..j], [u], hs);
        assert [s[j]][..0] == [] && [u][..0] == [];
      }
    case None =>
      UntouchedConcat([u], s, hs);
      assert [u][..0] == [];
  }

  /** Stored records whose hash is never fetched stay, in their relative
      order. */
  lemma {:induction false} MergeKeepsUntouched(s: seq<PostRecord>, ups: seq<PostRecord>, hs: set<string>)
    requires HashSet(ups) <= hs
    ensures Untouched(MergeAll(s, ups), hs) == Untouched(s, hs)
  {
    if ups != [] {
      var init := ups[..|ups| - 1];
      var u := ups[|ups| - 1];
      HashSetLast(ups);
      MergeKeepsUntouched(s, init, hs);
      MergeOneUntouched(MergeAll(s, init), u, hs);
    }
  }

  /** The first record with hash `h` after one merge step. */
  lemma MergeOneFind(s: seq<PostRecord>, u: PostRecord, h: string)
    ensures var r := MergeOne(s, u);
            if h == u.hash then FindHash(r, h).Some? && r[FindHash(r, h).value] == u
            else FindHash(r, h).Some? == FindHash(s, h).Some?
                 && (FindHash(s, h).Some? ==> r[FindHash(r, h).value] == s[FindHash(s, h).value])
  {
    var r := MergeOne(s, u);
    match FindHash(s, u.hash)
    case Some(j) =>
      assert r[j] == u;
      if h != u.hash && FindHash(s, h).Some? {
        assert r[FindHash(s, h).value].hash == h;
      }
    case None =>
      if h != u.hash && FindHash(s, h).Some? {
        var k := FindHash(s, h).value;
        assert r[k + 1].hash == h;
      }
  }

  /** The last fetched record with hash `h`. */
  function LastWith(ups: seq<PostRecord>, h: string): PostRecord
    requires h in HashSet(ups)
  {
    var init := ups[..|ups| - 1];
    if ups[|ups| - 1].hash == h then ups[|ups| - 1]
    else
      assert h in HashSet(init) by {
        var i :| 0 <= i < |ups| && ups[i].hash == h;
        assert init[i].hash == h;
      }
      LastWith(init, h)
  }

  /** For every fetched hash, the first record carrying it after the merge
      is the last fetched record with that hash. */
  lemma {:induction false} MergeFinalRecord(s: seq<PostRecord>, ups: seq<PostRecord>, h: string)
    requires h in HashSet(ups)
    ensures FindHash(MergeAll(s, ups), h).Some?
    ensures MergeAll(s, ups)[FindHash(MergeAll(s, ups), h).value] == LastWith(ups, h)
  {
    var init := ups[..|ups| - 1];
    var u := ups[|ups| - 1];
    MergeOneFind(MergeAll(s, init), u, h);
    if u.hash != h {
      assert h in HashSet(init) by {
        var i :| 0 <= i < |ups| && ups[i].hash == h;
        assert init[i].hash == h;
      }
      MergeFinalRecord(s, init, h);
    }
  }

  function Reverse(s: seq<PostRecord>): (r: seq<PostRecord>)
    ensures |r| == |s| && forall i :: 0 <= i < |s| ==> r[i] == s[|s| - 1 - i]
  {
    if s == [] then [] else [s[|s| - 1]] + Reverse(s[..|s| - 1])
  }

  predicate DistinctHashes(s: seq<PostRecord>)
  {
    forall i, j :: 0 <= i < j < |s| ==> s[i].hash != s[j].hash
  }

  /** Fetched records that are all new end up in front of the stored ones in
      reverse fetch order, because each is prepended in turn. */
  lemma {:induction false} MergeNewReversed(s: seq<PostRecord>, ups: seq<PostRecord>)
    requires DistinctHashes(ups)
    requires forall i :: 0 <= i < |ups| ==> ups[i].hash !in HashSet(s)
    ensures MergeAll(s, ups) == Reverse(ups) + s
  {
    if ups != [] {
      var init := ups[..|ups| - 1];
      var u := ups[|ups| - 1];
      MergeNewReversed(s, init);
      NewHashAbsent(s, ups);
      assert MergeOne(Reverse(init) + s, u) == [u] + (Reverse(init) + s);
    }
  }

  lemma NewHashAbsent(s: seq<PostRecord>, ups: seq<PostRecord>)
    requires ups != [] && DistinctHashes(ups)
    requires forall i :: 0 <= i < |ups| ==> ups[i].hash !in HashSet(s)
    ensures FindHash(Reverse(ups[..|ups| - 1]) + s, ups[|ups| - 1].hash).None?
  {
    var init := ups[..|ups| - 1];
    var u := ups[|ups| - 1];
    var prior := Reverse(init) + s;
    forall i | 0 <= i < |prior|
      ensures prior[i].hash != u.hash
    {
      if i < |init| {
        assert prior[i] == ups[|init| - 1 - i];
      } else {
        assert prior[i] == s[i - |init|];
        assert s[i - |init|].hash in HashSet(s);
      }
    }
  }

  /** Two fetched records with one new hash leave the later one in front. */
  lemma TwoNewRecordsReversed(a: PostRecord, b: PostRecord)
    requires a.hash != b.hash
    ensures MergeAll([], [a, b]) == [b, a]
  {
    assert HashSet([]) == {};
    MergeNewReversed([], [a, b]);
  }

  /** The inner search of `_saveData`: merges one fetched record. */
  method MergeRecord(oldData: seq<PostRecord>, u: PostRecord) returns (r: seq<PostRecord>)
    ensures r == MergeOne(oldData, u)
  {
    r := oldData;
    var found := false;
    var jj := 0;
    while jj < |r|
      invariant 0 <= jj <= |r| && r == oldData
      invariant forall i :: 0 <= i < jj ==> oldData[i].hash != u.hash
    {
      if u.hash == r[jj].hash {
        assert FindHash(oldData, u.hash) == Some(jj);
        if u != r[jj] {
          r := r[jj := u];
        }
        found := true;
        break;
      }
      jj := jj + 1;
    }
    if !found {
      assert FindHash(oldData, u.hash).None?;
      r := [u] + r;
    }
  }

  /** The merge loop of `_saveData`. */
  method MergeRecords(oldData: seq<PostRecord>, updates: seq<PostRecord>) returns (r: seq<PostRecord>)
    ensures r == MergeAll(oldData, updates)
  {
    r := oldData;
    for ii := 0 to |updates|
      invariant r == MergeAll(oldData, updates[..ii])
    {
      assert updates[..ii + 1][..ii] == updates[..ii];
      r := MergeRecord(r, updates[ii]);
    }
    assert updates[..|updates|] == updates;
  }

  // ---- Pages of posts ----

  /** One image of an album post. */
  datatype ImageInfo = ImageInfo(id: string, views: int)

  /** One post as the submissions page gives it (after the reviver);
      `timestamp` is the post date already formatted. */
  datatype PostRow = PostRow(
    id: string, title: string, isAlbum: bool, images: seq<ImageInfo>,
    points: int, ups: int, downs: int, views: int,
    commentCount: int, favoriteCount: int, viral: bool, timestamp: string)

  /** The flat record pushed for a post. */
  function RecordOf(row: PostRow): PostRecord
  {
    PostRecord(row.id, row.title, row.points, row.ups, row.downs, row.views,
               row.commentCount, row.favoriteCount, row.viral, row.timestamp)
  }

  function RecordsOf(rows: seq<PostRow>): (r: seq<PostRecord>)
    ensures |r| == |rows|
  {
    if rows == [] then [] else RecordsOf(rows[..|rows| - 1]) + [RecordOf(rows[|rows| - 1])]
  }

  /** The `i`-th record is the record of the `i`-th post. */
  lemma {:induction false} RecordsOfAt(rows: seq<PostRow>, i: int)
    requires 0 <= i < |rows|
    ensures RecordsOf(rows)[i] == RecordOf(rows[i])
  {
    if i < |rows| - 1 {
      RecordsOfAt(rows[..|rows| - 1], i);
    }
  }

  /** The `{hash: views}` pairs a post contributes: the post itself, or each
      image of an album. */
  function RowEntries(row: PostRow): seq<Entry>
  {
    if !row.isAlbum then [Entry(row.id, row.views)] else ImageEntries(row.images)
  }

  function ImageEntries(images: seq<ImageInfo>): (r: seq<Entry>)
    ensures |r| == |images|
  {
    if images == [] then [] else ImageEntries(images[..|images| - 1]) + [Entry(images[|images| - 1].id, images[|images| - 1].views)]
  }

  /** An album contributes one pair per image, in image order, each with
      the image's own id and views. */
  lemma {:induction false} AlbumEntriesAt(row: PostRow, i: int)
    requires row.isAlbum && 0 <= i < |row.images|
    ensures |RowEntries(row)| == |row.images|
    ensures RowEntries(row)[i] == Entry(row.images[i].id, row.images[i].views)
  {
    ImageEntriesAt(row.images, i);
  }

  lemma {:induction false} ImageEntriesAt(images: seq<ImageInfo>, i: int)
    requires 0 <= i < |images|
    ensures ImageEntries(images)[i] == Entry(images[i].id, images[i].views)
  {
    if i < |images| - 1 {
      ImageEntriesAt(images[..|images| - 1], i);
    }
  }

  function PageEntries(rows: seq<PostRow>): seq<Entry>
  {
    if rows == [] then [] else PageEntries(rows[..|rows| - 1]) + RowEntries(rows[|rows| - 1])
  }

  /** Each `addHash` call is a row of its own for the tracker. */
  function Singletons(es: seq<Entry>): (r: seq<seq<Entry>>)
    ensures |r| == |es|
  {
    if es == [] then [] else Singletons(es[..|es| - 1]) + [[es[|es| - 1]]]
  }

  lemma {:induction false} SingletonsConcat(a: seq<Entry>, b: seq<Entry>)
    ensures Singletons(a + b) == Singletons(a) + Singletons(b)
    decreases |b|
  {
    if b == [] {
      assert a + b == a;
    } else {
      assert (a + b)[..|a + b| - 1] == a + b[..|b| - 1];
      SingletonsConcat(a, b[..|b| - 1]);
    }
  }

  lemma PageStep(st: TopN.TopState, m: map<string, int>, rows: seq<PostRow>, i: int)
    requires 0 <= i < |rows|
    ensures Tracked(st, PageEntries(rows[..i + 1])) == Tracked(Tracked(st, PageEntries(rows[..i])), RowEntries(rows[i]))
    ensures Counted(m, PageEntries(rows[..i + 1])) == Counted(Counted(m, PageEntries(rows[..i])), RowEntries(rows[i]))
    ensures RecordsOf(rows[..i + 1]) == RecordsOf(rows[..i]) + [RecordOf(rows[i])]
  {
    assert rows[..i + 1][..i] == rows[..i];
    SingletonsConcat(PageEntries(rows[..i]), RowEntries(rows[i]));
    TopN.AddRowsConcat(st, Singletons(PageEntries(rows[..i])), Singletons(RowEntries(rows[i])));
    Views.ApplyAllConcat(m, PageEntries(rows[..i]), RowEntries(rows[i]));
  }

  /** The tracker after the `addHash` calls for `es` (for the logged-in
      user's tracker). */
  function Tracked(st: TopN.TopState, es: seq<Entry>): TopN.TopState
  {
    TopN.AddRows(st, Singletons(es))
  }

  /** The counts after the `addHash` calls for `es`. */
  function Counted(m: map<string, int>, es: seq<Entry>): map<string, int>
  {
    Views.ApplyAll(m, es).0
  }

  /** The state `ProcessPage` starts from. */
  datatype Start = Start(top: TopN.TopState, topPrimary: bool, views: map<string, int>, offset: int,
                         replies: seq<PostRecord>, count: nat, username: string, merge: bool, primary: bool)

  /** `LoadPostDataClass` with the parts of its base class it uses. */
  class PostLoader {
    var username: string
    var merge: bool
    var isPrimary: bool
    var runningCount: nat
    var allReplies: seq<PostRecord>
    const top100: TopN.Top100Tracker
    const imgViews: Views.ImgViews

    /** The objects were initialised together for one user, whose total is
        loaded in the ledger. */
    predicate Linked()
      reads this`username, top100, imgViews, imgViews.ledger
    {
      top100.username == username && imgViews.username == username
      && username in imgViews.ledger.sums
    }

    constructor (username: string, merge: bool, isPrimary: bool, top100: TopN.Top100Tracker, imgViews: Views.ImgViews)
      ensures this.username == username && this.merge == merge && this.isPrimary == isPrimary
      ensures this.top100 == top100 && this.imgViews == imgViews
      ensures runningCount == 0 && allReplies == []
    {
      this.username := username;
      this.merge := merge;
      this.isPrimary := isPrimary;
      this.top100 := top100;
      this.imgViews := imgViews;
      runningCount := 0;
      allReplies := [];
    }

    /** `_process_response_json`: for the logged-in user every post's (or
        album image's) views go to the tracker and the counts; every post
        adds its record. */
    method ProcessPage(rows: seq<PostRow>)
      requires Linked()
      modifies this, top100, imgViews, imgViews.ledger
      ensures Linked()
      ensures allReplies == old(allReplies) + RecordsOf(rows)
      ensures runningCount == old(runningCount) + |rows|
      ensures isPrimary && top100.isPrimary ==> top100.State() == Tracked(old(top100.State()), PageEntries(rows))
      ensures !(isPrimary && top100.isPrimary) ==> top100.State() == old(top100.State())
      ensures isPrimary ==> imgViews.views == Counted(old(imgViews.views), PageEntries(rows))
      ensures !isPrimary ==> imgViews.views == old(imgViews.views)
      ensures imgViews.Offset() == old(imgViews.Offset())
      ensures username == old(username) && merge == old(merge) && isPrimary == old(isPrimary)
      ensures top100.isPrimary == old(top100.isPrimary)
    {
      ghost var s := Start(top100.State(), top100.isPrimary, imgViews.views, imgViews.Offset(),
                           allReplies, runningCount, username, merge, isPrimary);
      for i := 0 to |rows|
        invariant Loaded(s, PageEntries(rows[..i]), RecordsOf(rows[..i]), i)
      {
        ProcessRowAt(s, rows, i);
      }
      assert rows[..|rows|] == rows;
    }

    /** The pass of the loop of `_process_response_json` for post `i`. */
    method ProcessRowAt(ghost s: Start, rows: seq<PostRow>, i: nat)
      requires i < |rows| && Loaded(s, PageEntries(rows[..i]), RecordsOf(rows[..i]), i)
      modifies this, top100, imgViews, imgViews.ledger
      ensures Loaded(s, PageEntries(rows[..i + 1]), RecordsOf(rows[..i + 1]), i + 1)
    {
      PageStep(s.top, s.views, rows, i);
      ProcessRow(rows[i]);
    }

    /** The loader `s` was, after the `addHash` calls for `es` and with the
        records `recs` of `n` more posts. */
    ghost predicate Loaded(s: Start, es: seq<Entry>, recs: seq<PostRecord>, n: int)
      reads this, top100, imgViews, imgViews.ledger
    {
      && Linked()
      && allReplies == s.replies + recs && runningCount == s.count + n
      && top100.isPrimary == s.topPrimary
      && (s.primary && s.topPrimary ==> top100.State() == Tracked(s.top, es))
      && (!(s.primary && s.topPrimary) ==> top100.State() == s.top)
      && (s.primary ==> imgViews.views == Counted(s.views, es))
      && (!s.primary ==> imgViews.views == s.views)
      && imgViews.Offset() == s.offset
      && username == s.username && merge == s.merge && isPrimary == s.primary
    }

    /** One post of `_process_response_json`. */
    method ProcessRow(row: PostRow)
      requires Linked()
      modifies this, top100, imgViews, imgViews.ledger
      ensures Linked()
      ensures allReplies == old(allReplies) + [RecordOf(row)]
      ensures runningCount == old(runningCount) + 1
      ensures isPrimary && top100.isPrimary ==> top100.State() == Tracked(old(top100.State()), RowEntries(row))
      ensures !(isPrimary && top100.isPrimary) ==> top100.State() == old(top100.State())
      ensures isPrimary ==> imgViews.views == Counted(old(imgViews.views), RowEntries(row))
      ensures !isPrimary ==> imgViews.views == old(imgViews.views)
      ensures imgViews.Offset() == old(imgViews.Offset())
      ensures username == old(username) && merge == old(merge) && isPrimary == old(isPrimary)
      ensures top100.isPrimary == old(top100.isPrimary)
    {
      if isPrimary {
        AddRowViews(row);
      }
      allReplies := allReplies + [RecordOf(row)];
      runningCount := runningCount + 1;
    }

    /** The views of one post (or of each image of an album) go to the
        tracker and the counts. */
    method AddRowViews(row: PostRow)
      requires Linked()
      modifies top100, imgViews, imgViews.ledger
      ensures Linked()
      ensures top100.isPrimary ==> top100.State() == Tracked(old(top100.State()), RowEntries(row))
      ensures !top100.isPrimary ==> top100.State() == old(top100.State())
      ensures imgViews.views == Counted(old(imgViews.views), RowEntries(row))
      ensures imgViews.Offset() == old(imgViews.Offset())
      ensures top100.isPrimary == old(top100.isPrimary)
    {
      var es := RowEntries(row);
      ghost var t0, v0, off0, tp0 := top100.State(), imgViews.views, imgViews.Offset(), top100.isPrimary;
      for k := 0 to |es|
        invariant RowFed(t0, v0, off0, tp0, es[..k])
      {
        AddEntryAt(t0, v0, off0, tp0, es, k);
      }
      assert es[..|es|] == es;
    }

    /** The tracker and the counts went from `t0` and `v0` through the
        `addHash` calls for `es`; nothing else moved. */
    ghost predicate RowFed(t0: TopN.TopState, v0: map<string, int>, off0: int, tp0: bool, es: seq<Entry>)
      reads this`username, top100, imgViews, imgViews.ledger
    {
      && Linked() && imgViews.Offset() == off0 && top100.isPrimary == tp0
      && (tp0 ==> top100.State() == Tracked(t0, es))
      && (!tp0 ==> top100.State() == t0)
      && imgViews.views == Counted(v0, es)
    }

    /** The pass of the loop of `AddRowViews` for pair `k`. */
    method AddEntryAt(ghost t0: TopN.TopState, ghost v0: map<string, int>, ghost off0: int, ghost tp0: bool,
                      es: seq<Entry>, k: nat)
      requires k < |es| && RowFed(t0, v0, off0, tp0, es[..k])
      modifies top100, imgViews, imgViews.ledger
      ensures RowFed(t0, v0, off0, tp0, es[..k + 1])
    {
      assert es[..k + 1][..k] == es[..k];
      assert Singletons(es[..k + 1])[..k] == Singletons(es[..k]);
      top100.AddHash(es[k].hash, es[k].views);
      imgViews.AddHash(es[k].hash, es[k].views);
    }

    /** `_fetchStep`: a failed fetch (`None`) or an empty page ends the
        session; any other page is processed. */
    method FetchStep(page: Option<seq<PostRow>>) returns (success: bool)
      requires Linked()
      modifies this, top100, imgViews, imgViews.ledger
      ensures Linked()
      ensures success <==> page.Some? && page.value != []
      ensures !success ==> allReplies == old(allReplies) && runningCount == old(runningCount)
                           && top100.State() == old(top100.State()) && imgViews.views == old(imgViews.views)
                           && imgViews.ledger.sums == old(imgViews.ledger.sums)
      ensures success ==> allReplies == old(allReplies) + RecordsOf(page.value)
                          && runningCount == old(runningCount) + |page.value|
      ensures success && isPrimary && top100.isPrimary ==>
                top100.State() == Tracked(old(top100.State()), PageEntries(page.value))
      ensures success && !(isPrimary && top100.isPrimary) ==> top100.State() == old(top100.State())
      ensures success && isPrimary ==> imgViews.views == Counted(old(imgViews.views), PageEntries(page.value))
      ensures success && !isPrimary ==> imgViews.views == old(imgViews.views)
      ensures imgViews.Offset() == old(imgViews.Offset())
      ensures username == old(username) && merge == old(merge) && isPrimary == old(isPrimary)
      ensures top100.isPrimary == old(top100.isPrimary)
    {
      if page.None? || |page.value| == 0 {
        return false;
      }
      ProcessPage(page.value);
      success := true;
    }

    /** `_saveData`: nothing is saved after a cancel or when no post was
        fetched; otherwise the counts and the tracker are saved, then the
        records, merged into the saved ones in merge mode, and their date. */
    method SaveData(cache: WebCache, cancelLoad: bool, subscribed: bool, now: string)
      requires Linked()
      modifies top100, imgViews, cache
      ensures cancelLoad || old(allReplies) == [] ==> cache.entries == old(cache.entries)
      ensures !cancelLoad && old(allReplies) != [] ==>
                var saved := if username == "" then [] else
                             match old(cache.Saved(username, POSTSDATA))
                             case PostList(p) => p
                             case _ => [];
                var posts := if merge then MergeAll(saved, allReplies) else allReplies;
                var counted := CountsSaved(old(cache.entries), old(imgViews.views), old(top100.State()),
                                           old(top100.inited), old(top100.isPrimary), subscribed, now);
                cache.entries == counted[CacheKey(username, POSTSDATA) := PostList(posts)]
                                        [CacheKey(username, LASTMODPOSTS) := Text(now)]
                && cache.Saved(username, POSTSDATA) == PostList(posts)
                && cache.Saved(username, LASTMODPOSTS) == Text(now)
                && imgViews.views == map[] && !imgViews.inited
      ensures !cancelLoad && old(allReplies) != [] && old(top100.inited) && (old(top100.isPrimary) || subscribed) ==>
                top100.State() == TopN.Compacted(old(top100.State()))
      ensures cancelLoad || old(allReplies) == [] || !old(top100.inited) || (!old(top100.isPrimary) && !subscribed) ==>
                top100.State() == old(top100.State())
      ensures allReplies == old(allReplies) && username == old(username) && merge == old(merge)
              && isPrimary == old(isPrimary) && imgViews.ledger.sums == old(imgViews.ledger.sums)
    {
      if cancelLoad {
        return;
      }
      if |allReplies| == 0 {
        return;
      }
      SaveCounts(cache, subscribed, now);
      var posts: seq<PostRecord>;
      if merge {
        var stored := cache.GetSaved(username, POSTSDATA);
        var oldData := if username == "" then [] else
                       match stored
                       case PostList(p) => p
                       case _ => [];
        posts := MergeRecords(oldData, allReplies);
      } else {
        posts := allReplies;
      }
      cache.PutSaved(username, POSTSDATA, PostList(posts));
      CacheKeyDistinct(username, POSTSDATA, LASTMODPOSTS);
      cache.PutSaved(username, LASTMODPOSTS, Text(now));
    }

    /** The store after the counts, then the tracker, of this loader's user
        are saved. */
    ghost function CountsSaved(entries: map<string, Blob>, views: map<string, int>, st: TopN.TopState,
                               inited: bool, topPrimary: bool, subscribed: bool, now: string): map<string, Blob>
      reads this, imgViews, imgViews.ledger
    {
      TopN.TrackerSaved(Views.ViewsSaved(entries, username, views, imgViews.ledger.sums, now),
                        username, st, inited, topPrimary, subscribed, now)
    }

    /** The first part of `_saveData`: the counts, then the tracker, are
        saved; the saved records are not touched. */
    method SaveCounts(cache: WebCache, subscribed: bool, now: string)
      requires Linked()
      modifies top100, imgViews, cache
      ensures cache.entries == CountsSaved(old(cache.entries), old(imgViews.views), old(top100.State()),
                                           old(top100.inited), old(top100.isPrimary), subscribed, now)
      ensures cache.Saved(username, POSTSDATA) == old(cache.Saved(username, POSTSDATA))
      ensures old(top100.inited) && (old(top100.isPrimary) || subscribed) ==>
                top100.State() == TopN.Compacted(old(top100.State()))
      ensures !old(top100.inited) || (!old(top100.isPrimary) && !subscribed) ==>
                top100.State() == old(top100.State())
      ensures imgViews.views == map[] && !imgViews.inited
    {
      CacheKeyDistinct(username, POSTSDATA, IMGVIEWS);
      CacheKeyDistinct(username, POSTSDATA, LASTMODIMAGES);
      CacheKeyDistinct(username, POSTSDATA, VIEWSSUM);
      CacheKeyDistinct(username, POSTSDATA, TOPVIEWS);
      CacheKeyDistinct(username, POSTSDATA, LASTMODTOPVIEWS);
      ghost var key, e0 := CacheKey(username, POSTSDATA), cache.entries;
      imgViews.Save(cache, false, now);
      assert Lookup(cache.entries, key) == Lookup(e0, key);
      ghost var e1 := cache.entries;
      top100.Save(cache, subscribed, false, now);
      assert Lookup(cache.entries, key) == Lookup(e1, key);
    }
  }
}
