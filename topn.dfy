/** The top-N tracker (`Top100TrackerClass`): a list of `{hash: views}`
    entries that new entries are appended to lazily and that is compacted
    (first occurrence of each hash kept, sorted by views, trimmed to 300,
    minimum recomputed) when it grows past 600 entries and before every
    read or save. */
module TopN {
  import opened Records
  import opened Cache

  const MIN_VIEW_THRESHOLD := 50
  const TOP_N_SAVE_SIZE := 300
  const TOP100_DISPLAY_SIZE_DEFAULT := 50
  const TOP100_DISPLAY_SIZE_PRO := 100

  /** `getTopNSize` */
  function TopNSize(subscribed: bool): nat
  {
    if subscribed then TOP100_DISPLAY_SIZE_PRO else TOP100_DISPLAY_SIZE_DEFAULT
  }

  function Hashes(s: seq<Entry>): (r: seq<string>)
    ensures |r| == |s| && forall i :: 0 <= i < |s| ==> r[i] == s[i].hash
  {
    if s == [] then [] else Hashes(s[..|s| - 1]) + [s[|s| - 1].hash]
  }

  predicate NoDupHashes(s: seq<Entry>)
  {
    forall i, j :: 0 <= i < j < |s| ==> s[i].hash != s[j].hash
  }

  predicate SortedDesc(s: seq<Entry>)
  {
    forall i, j :: 0 <= i < j < |s| ==> s[i].views >= s[j].views
  }

  /** Entry `i` is the first one of `s` with its hash. */
  predicate FirstOcc(s: seq<Entry>, i: int)
    requires 0 <= i < |s|
  {
    forall j :: 0 <= j < i ==> s[j].hash != s[i].hash
  }

  // ---- Compaction ----

  /** The dedup filter of `_sortlist`: every entry whose hash was not seen
      earlier in the list. */
  function Dedup(s: seq<Entry>): (r: seq<Entry>)
    ensures |r| <= |s|
  {
    if s == [] then []
    else Dedup(s[..|s| - 1]) + (if FirstOcc(s, |s| - 1) then [s[|s| - 1]] else [])
  }

  /** Places `e` before the first entry with no more views than it. */
  function InsertDesc(e: Entry, s: seq<Entry>): (r: seq<Entry>)
    ensures |r| == |s| + 1
  {
    if s == [] || e.views >= s[0].views then [e] + s
    else [s[0]] + InsertDesc(e, s[1..])
  }

  /** Insertion adds exactly the one entry. */
  lemma {:induction false} InsertPerm(e: Entry, s: seq<Entry>)
    ensures multiset(InsertDesc(e, s)) == multiset(s) + multiset{e}
  {
    if s != [] && e.views < s[0].views {
      InsertPerm(e, s[1..]);
      assert s == [s[0]] + s[1..];
    }
  }

  /** The inserted entry or the old head comes first. */
  lemma InsertHead(e: Entry, s: seq<Entry>)
    requires s != []
    ensures InsertDesc(e, s)[0] == e || InsertDesc(e, s)[0] == s[0]
  {
  }

  lemma {:induction false} InsertSorted(e: Entry, s: seq<Entry>)
    requires SortedDesc(s)
    ensures SortedDesc(InsertDesc(e, s))
  {
    if s != [] && e.views < s[0].views {
      var rest := InsertDesc(e, s[1..]);
      InsertSorted(e, s[1..]);
      var r := [s[0]] + rest;
      assert InsertDesc(e, s) == r;
      if s[1..] != [] {
        InsertHead(e, s[1..]);
      }
      assert rest[0].views <= s[0].views;
      forall i, j | 0 <= i < j < |r|
        ensures r[i].views >= r[j].views
      {
        assert r[j] == rest[j - 1];
        if i > 0 {
          assert r[i] == rest[i - 1];
        } else if j > 1 {
          assert rest[0].views >= rest[j - 1].views;
        }
      }
    }
  }

  /** The descending sort of `_sortlist`. The comparator used there never
      reports a tie, so the order of equal counts is not determined; any
      non-increasing permutation is a faithful outcome, and this one is an
      insertion sort. */
  function SortDesc(s: seq<Entry>): (r: seq<Entry>)
    ensures |r| == |s|
  {
    if s == [] then []
    else InsertDesc(s[|s| - 1], SortDesc(s[..|s| - 1]))
  }

  /** The sort is a non-increasing permutation of its input. */
  lemma {:induction false} SortDescSpec(s: seq<Entry>)
    ensures multiset(SortDesc(s)) == multiset(s)
    ensures SortedDesc(SortDesc(s))
  {
    if s != [] {
      var init := s[..|s| - 1];
      SortDescSpec(init);
      InsertPerm(s[|s| - 1], SortDesc(init));
      InsertSorted(s[|s| - 1], SortDesc(init));
      assert s == init + [s[|s| - 1]];
    }
  }

  function Take(s: seq<Entry>, n: nat): (r: seq<Entry>)
    ensures |r| <= n && |r| <= |s|
    ensures |s| <= n ==> r == s
    ensures |s| > n ==> |r| == n
  {
    if |s| <= n then s else s[..n]
  }

  /** The list `_sortlist` leaves behind. */
  function CompactList(s: seq<Entry>): seq<Entry>
  {
    Take(SortDesc(Dedup(s)), TOP_N_SAVE_SIZE)
  }

  /** What the tracker keeps: the list and the admission minimum. */
  datatype TopState = TopState(data: seq<Entry>, minVal: int)

  /** `_sortlist` on the whole state: an empty list is left alone, and
      otherwise the minimum becomes the views of the last kept entry. */
  function Compacted(st: TopState): (r: TopState)
    ensures st.data == [] ==> r == st
    ensures st.data != [] ==> |r.data| >= 1 && r.minVal == r.data[|r.data| - 1].views
    ensures |r.data| <= TOP_N_SAVE_SIZE || r == st
  {
    if st.data == [] then st
    else
      var d := CompactList(st.data);
      CompactListNonEmpty(st.data);
      TopState(d, d[|d| - 1].views)
  }

  /** The store after `save` of a tracker in state `st` when the load was
      not cancelled: unchanged before `init` or for a non-primary user
      without a subscription; otherwise the compacted list and its date are
      written. */
  function TrackerSaved(entries: map<string, Blob>, username: string, st: TopState, inited: bool,
                        isPrimary: bool, subscribed: bool, now: string): map<string, Blob>
  {
    if !inited || (!isPrimary && !subscribed) then entries
    else entries[CacheKey(username, TOPVIEWS) := TopList(Compacted(st).data)]
                [CacheKey(username, LASTMODTOPVIEWS) := Text(now)]
  }

  lemma CompactListNonEmpty(s: seq<Entry>)
    requires s != []
    ensures |CompactList(s)| >= 1
  {
    DedupNonEmpty(s);
    var d := Dedup(s);
    SortDescSpec(d);
    assert d[0] in multiset(SortDesc(d));
  }

  lemma {:induction false} DedupNonEmpty(s: seq<Entry>)
    requires s != []
    ensures Dedup(s) != []
  {
    if |s| > 1 {
      DedupNonEmpty(s[..|s| - 1]);
    } else {
      assert FirstOcc(s, 0);
    }
  }

  lemma {:induction false} DedupNoDup(s: seq<Entry>)
    ensures NoDupHashes(Dedup(s))
  {
    if s != [] {
      var init := s[..|s| - 1];
      DedupNoDup(init);
      if FirstOcc(s, |s| - 1) {
        var d := Dedup(s);
        forall i, j | 0 <= i < j < |d|
          ensures d[i].hash != d[j].hash
        {
          if j == |d| - 1 {
            assert d[i] in Dedup(init);
            DedupOnlyFirst(init, d[i]);
            var k :| 0 <= k < |init| && FirstOcc(init, k) && init[k] == d[i];
          }
        }
      }
    }
  }

  /** The first occurrence of every hash is kept. */
  lemma {:induction false} DedupKeepsFirst(s: seq<Entry>, i: int)
    requires 0 <= i < |s| && FirstOcc(s, i)
    ensures s[i] in Dedup(s)
  {
    var init := s[..|s| - 1];
    if i < |s| - 1 {
      assert init[i] == s[i];
      DedupKeepsFirst(init, i);
    }
  }

  /** Every kept entry is the first occurrence of its hash. */
  lemma {:induction false} DedupOnlyFirst(s: seq<Entry>, x: Entry)
    requires x in Dedup(s)
    ensures exists i :: 0 <= i < |s| && FirstOcc(s, i) && s[i] == x
  {
    var init := s[..|s| - 1];
    var last := if FirstOcc(s, |s| - 1) then [s[|s| - 1]] else [];
    assert Dedup(s) == Dedup(init) + last;
    if x in Dedup(init) {
      DedupOnlyFirst(init, x);
      var i :| 0 <= i < |init| && FirstOcc(init, i) && init[i] == x;
      assert FirstOcc(s, i) by {
        forall j | 0 <= j < i
          ensures s[j].hash != s[i].hash
        {
          assert s[j] == init[j];
        }
      }
    } else {
      assert x in last;
      assert FirstOcc(s, |s| - 1) && s[|s| - 1] == x;
    }
  }

  /** Every hash has a first occurrence. */
  lemma {:induction false} FirstOccExists(s: seq<Entry>, i: int)
    requires 0 <= i < |s|
    ensures exists j :: 0 <= j <= i && FirstOcc(s, j) && s[j].hash == s[i].hash
    decreases i
  {
    if !FirstOcc(s, i) {
      var j :| 0 <= j < i && s[j].hash == s[i].hash;
      FirstOccExists(s, j);
    }
  }

  /** After dedup, every hash of the list is still there. */
  lemma DedupCovers(s: seq<Entry>, i: int)
    requires 0 <= i < |s|
    ensures exists x :: x in Dedup(s) && x.hash == s[i].hash
  {
    FirstOccExists(s, i);
    var j :| 0 <= j <= i && FirstOcc(s, j) && s[j].hash == s[i].hash;
    DedupKeepsFirst(s, j);
  }

  /** After dedup, each hash carries the views of its first occurrence. */
  lemma DedupKeptIsFirst(s: seq<Entry>, x: Entry, i: int)
    requires x in Dedup(s) && 0 <= i < |s| && s[i].hash == x.hash
    ensures exists j :: 0 <= j <= i && FirstOcc(s, j) && s[j] == x
  {
    DedupOnlyFirst(s, x);
    var j :| 0 <= j < |s| && FirstOcc(s, j) && s[j] == x;
    if j > i {
      assert false;
    }
  }

  lemma {:induction false} InsertNoDup(e: Entry, s: seq<Entry>)
    requires NoDupHashes(s) && forall x :: x in s ==> x.hash != e.hash
    ensures NoDupHashes(InsertDesc(e, s))
  {
    if s != [] && e.views < s[0].views {
      var rest := InsertDesc(e, s[1..]);
      InsertNoDup(e, s[1..]);
      var r := [s[0]] + rest;
      InsertPerm(e, s[1..]);
      forall i, j | 0 <= i < j < |r|
        ensures r[i].hash != r[j].hash
      {
        if i == 0 {
          assert r[j] in multiset(rest);
          if r[j] != e {
            assert r[j] in multiset(s[1..]);
            var k :| 0 <= k < |s[1..]| && s[1..][k] == r[j];
            assert s[k + 1] == r[j];
          }
        } else {
          assert r[i] == rest[i - 1] && r[j] == rest[j - 1];
        }
      }
    }
  }

  lemma {:induction false} SortNoDup(s: seq<Entry>)
    requires NoDupHashes(s)
    ensures NoDupHashes(SortDesc(s))
  {
    if s != [] {
      var init := s[..|s| - 1];
      SortNoDup(init);
      SortDescSpec(init);
      forall x | x in SortDesc(init)
        ensures x.hash != s[|s| - 1].hash
      {
        assert x in multiset(SortDesc(init));
        assert x in multiset(init);
        var k :| 0 <= k < |init| && init[k] == x;
      }
      InsertNoDup(s[|s| - 1], SortDesc(init));
    }
  }

  /** `_sortlist` on a non-empty list: no hash twice, each hash with the
      views of its first occurrence, non-increasing views, at most 300
      entries, and an entry is dropped only when 300 entries with at least
      its views were kept. */
  lemma CompactListSpec(s: seq<Entry>)
    requires s != []
    ensures var r := CompactList(s);
            && 1 <= |r| <= TOP_N_SAVE_SIZE
            && NoDupHashes(r)
            && SortedDesc(r)
            && (forall x, i :: x in r && 0 <= i < |s| && s[i].hash == x.hash ==>
                  exists j :: 0 <= j <= i && FirstOcc(s, j) && s[j] == x)
            && (forall i :: 0 <= i < |s| && FirstOcc(s, i) && s[i] !in r ==>
                  |r| == TOP_N_SAVE_SIZE && s[i].views <= r[|r| - 1].views)
  {
    var d := Dedup(s);
    var r := CompactList(s);
    DedupNoDup(s);
    SortNoDup(d);
    SortDescSpec(d);
    CompactListNonEmpty(s);
    forall x, i | x in r && 0 <= i < |s| && s[i].hash == x.hash
      ensures exists j :: 0 <= j <= i && FirstOcc(s, j) && s[j] == x
    {
      CompactKeepsOnlyDedup(s, x);
      DedupKeptIsFirst(s, x, i);
    }
    forall i | 0 <= i < |s| && FirstOcc(s, i) && s[i] !in r
      ensures |r| == TOP_N_SAVE_SIZE && s[i].views <= r[|r| - 1].views
    {
      CompactDropsOnlyLowest(s, i);
    }
  }

  lemma CompactKeepsOnlyDedup(s: seq<Entry>, x: Entry)
    requires x in CompactList(s)
    ensures x in Dedup(s)
  {
    var d := Dedup(s);
    SortDescSpec(d);
    assert x in SortDesc(d);
    assert x in multiset(SortDesc(d));
  }

  lemma CompactDropsOnlyLowest(s: seq<Entry>, i: int)
    requires 0 <= i < |s| && FirstOcc(s, i) && s[i] !in CompactList(s)
    ensures |CompactList(s)| == TOP_N_SAVE_SIZE && s[i].views <= CompactList(s)[TOP_N_SAVE_SIZE - 1].views
  {
    var d := Dedup(s);
    var sorted := SortDesc(d);
    var r := CompactList(s);
    SortDescSpec(d);
    DedupKeepsFirst(s, i);
    assert s[i] in multiset(sorted);
    var k :| 0 <= k < |sorted| && sorted[k] == s[i];
    if |sorted| <= TOP_N_SAVE_SIZE || k < TOP_N_SAVE_SIZE {
      assert false;
    }
    assert r[TOP_N_SAVE_SIZE - 1] == sorted[TOP_N_SAVE_SIZE - 1];
  }

  /** The first occurrence of a hash decides its views, even when a later
      one has more. */
  lemma DuplicateKeepsFirstViews()
    ensures CompactList([Entry("x", 60), Entry("x", 999)]) == [Entry("x", 60)]
  {
    var s := [Entry("x", 60), Entry("x", 999)];
    assert s[..1] == [Entry("x", 60)];
    assert FirstOcc(s[..1], 0);
    assert Dedup(s[..1]) == [Entry("x", 60)];
    assert !FirstOcc(s, 1);
    assert Dedup(s) == [Entry("x", 60)];
    assert SortDesc([Entry("x", 60)]) == InsertDesc(Entry("x", 60), []);
  }

  /** The `filter` of `_sortlist`, with its object of seen hashes. */
  method DedupFilter(s: seq<Entry>) returns (kept: seq<Entry>)
    ensures kept == Dedup(s)
  {
    var seen: set<string> := {};
    kept := [];
    for i := 0 to |s|
      invariant kept == Dedup(s[..i])
      invariant seen == set j | 0 <= j < i :: s[j].hash
    {
      assert s[..i + 1][..i] == s[..i];
      assert FirstOcc(s[..i + 1], i) <==> s[i].hash !in seen by {
        if s[i].hash in seen {
          var j :| 0 <= j < i && s[j].hash == s[i].hash;
          assert s[..i + 1][j].hash == s[..i + 1][i].hash;
        }
      }
      if s[i].hash !in seen {
        kept := kept + [s[i]];
        seen := seen + {s[i].hash};
      }
    }
    assert s[..|s|] == s;
  }

  // ---- Adding entries ----

  /** An entry `addHashes` appends: not zero views, at least the fixed
      threshold and at least the minimum of the last compaction. */
  predicate Accepts(e: Entry, minVal: int)
  {
    e.views != 0 && e.views >= MIN_VIEW_THRESHOLD && e.views >= minVal
  }

  /** The entries of one row that are appended, in row order. */
  function Admitted(row: seq<Entry>, minVal: int): (r: seq<Entry>)
    ensures |r| <= |row|
    ensures forall e :: e in r <==> e in row && Accepts(e, minVal)
  {
    if row == [] then []
    else
      var e := row[|row| - 1];
      var init := row[..|row| - 1];
      assert row == init + [e];
      Admitted(init, minVal) + (if Accepts(e, minVal) then [e] else [])
  }

  /** One row of `addHashes`: its accepted entries are appended, and a list
      then longer than 600 is compacted. */
  function AddRow(st: TopState, row: seq<Entry>): TopState
  {
    var grown := TopState(st.data + Admitted(row, st.minVal), st.minVal);
    if |grown.data| > 2 * TOP_N_SAVE_SIZE then Compacted(grown) else grown
  }

  /** `addHashes` for the primary user, row after row. */
  function AddRows(st: TopState, rows: seq<seq<Entry>>): TopState
  {
    if rows == [] then st else AddRow(AddRows(st, rows[..|rows| - 1]), rows[|rows| - 1])
  }

  /** Adding rows in two parts is adding them all. */
  lemma {:induction false} AddRowsConcat(st: TopState, a: seq<seq<Entry>>, b: seq<seq<Entry>>)
    ensures AddRows(st, a + b) == AddRows(AddRows(st, a), b)
    decreases |b|
  {
    if b == [] {
      assert a + b == a;
    } else {
      assert (a + b)[..|a + b| - 1] == a + b[..|b| - 1];
      AddRowsConcat(st, a, b[..|b| - 1]);
    }
  }

  /** After at least one row the list holds at most 600 entries, and a list
      that started within that bound stays within it. */
  lemma {:induction false} AddRowsBounded(st: TopState, rows: seq<seq<Entry>>)
    requires rows != [] || |st.data| <= 2 * TOP_N_SAVE_SIZE
    ensures |AddRows(st, rows).data| <= 2 * TOP_N_SAVE_SIZE
  {
    if rows != [] {
      var prior := AddRows(st, rows[..|rows| - 1]);
      var row := rows[|rows| - 1];
      var grown := prior.data + Admitted(row, prior.minVal);
      if |grown| <= 2 * TOP_N_SAVE_SIZE {
        assert |AddRows(st, rows).data| == |grown|;
      }
    }
  }

  /** Without a compaction, every accepted entry of the row is appended and
      nothing else changes. */
  lemma AddRowAppendsAccepted(st: TopState, row: seq<Entry>)
    requires |st.data| + |row| <= 2 * TOP_N_SAVE_SIZE
    ensures var r := AddRow(st, row);
            && r.minVal == st.minVal
            && r.data[..|st.data|] == st.data
            && forall e :: e in r.data[|st.data|..] <==> e in row && Accepts(e, st.minVal)
  {
    var r := AddRow(st, row);
    var a := Admitted(row, st.minVal);
    assert r.data == st.data + a;
    assert r.data[|st.data|..] == a;
  }

  /** Once a compaction has raised the minimum, an entry below it is
      rejected although the list is far below its 300-entry capacity. */
  lemma MinimumRejectsUnderCapacity()
    ensures var st := TopState([Entry("a", 1000)], 1000);
            AddRow(st, [Entry("b", 500)]) == st
  {
    var st := TopState([Entry("a", 1000)], 1000);
    assert !Accepts(Entry("b", 500), 1000);
    assert Admitted([Entry("b", 500)], 1000) == [];
    assert st.data + [] == st.data;
  }

  // ---- The tracker object ----

  class Top100Tracker {
    var username: string
    var inited: bool
    var isPrimary: bool
    var minVal: int
    var data: seq<Entry>

    constructor ()
      ensures username == "" && !inited && isPrimary && minVal == 0 && data == []
    {
      username := "";
      inited := false;
      isPrimary := true;
      minVal := 0;
      data := [];
    }

    function State(): TopState
      reads this
    {
      TopState(data, minVal)
    }

    /** `init`: the base initialisation runs once (the user defaults to the
        logged-in one, `currentUser`); the saved list is reloaded on every
        call, and an absent or unreadable one gives []. */
    method Init(name: string, currentUser: string, cache: WebCache)
      modifies this
      ensures old(inited) ==> username == old(username) && isPrimary == old(isPrimary)
      ensures !old(inited) ==> username == (if name != "" then name else currentUser)
                               && isPrimary == (currentUser == username)
      ensures inited && minVal == old(minVal)
      ensures data == (match Lookup(cache.entries, CacheKey(username, TOPVIEWS))
                       case TopList(entries) => entries
                       case _ => [])
    {
      if !inited {
        username := if name != "" then name else currentUser;
        isPrimary := currentUser == username;
        inited := true;
      }
      var saved := cache.GetSaved(username, TOPVIEWS);
      data := match saved
              case TopList(entries) => entries
              case _ => [];
    }

    /** `_sortlist` */
    method Compact()
      modifies this
      ensures State() == Compacted(old(State()))
      ensures username == old(username) && inited == old(inited) && isPrimary == old(isPrimary)
    {
      if |data| == 0 {
        return;
      }
      var kept := DedupFilter(data);
      var all := data;
      data := Take(SortDesc(kept), TOP_N_SAVE_SIZE);
      CompactListNonEmpty(all);
      minVal := data[|data| - 1].views;
    }

    /** `addHashes`: a non-primary user's entries are ignored. */
    method AddHashes(rows: seq<seq<Entry>>)
      modifies this
      ensures !old(isPrimary) ==> State() == old(State())
      ensures old(isPrimary) ==> State() == AddRows(old(State()), rows)
      ensures username == old(username) && inited == old(inited) && isPrimary == old(isPrimary)
    {
      if !isPrimary {
        return;
      }
      for r := 0 to |rows|
        invariant State() == AddRows(old(State()), rows[..r])
        invariant username == old(username) && inited == old(inited) && isPrimary == old(isPrimary)
      {
        assert rows[..r + 1][..r] == rows[..r];
        AppendAccepted(rows[r]);
        if |data| > TOP_N_SAVE_SIZE * 2 {
          Compact();
        }
      }
      assert rows[..|rows|] == rows;
    }

    /** The inner loop of `addHashes`: appends the row's accepted entries. */
    method AppendAccepted(row: seq<Entry>)
      modifies this
      ensures data == old(data) + Admitted(row, minVal)
      ensures minVal == old(minVal)
      ensures username == old(username) && inited == old(inited) && isPrimary == old(isPrimary)
    {
      for k := 0 to |row|
        invariant minVal == old(minVal)
        invariant data == old(data) + Admitted(row[..k], minVal)
        invariant username == old(username) && inited == old(inited) && isPrimary == old(isPrimary)
      {
        assert row[..k + 1][..k] == row[..k];
        var e := row[k];
        if e.views == 0 {
          continue;
        }
        if e.views < MIN_VIEW_THRESHOLD {
          continue;
        }
        if e.views < minVal {
          continue;
        }
        data := data + [e];
      }
      assert row[..|row|] == row;
    }

    /** `addHash` */
    method AddHash(hash: string, views: int)
      modifies this
      ensures !old(isPrimary) ==> State() == old(State())
      ensures old(isPrimary) ==> State() == AddRow(old(State()), [Entry(hash, views)])
      ensures username == old(username) && inited == old(inited) && isPrimary == old(isPrimary)
    {
      AddHashes([[Entry(hash, views)]]);
    }

    /** `getList`: the first 50 (100 when subscribed) compacted entries. */
    method GetList(subscribed: bool) returns (list: seq<Entry>)
      modifies this
      ensures !old(inited) ==> list == [] && State() == old(State())
      ensures old(inited) ==> State() == Compacted(old(State()))
                              && list == Take(data, TopNSize(subscribed))
      ensures username == old(username) && inited == old(inited) && isPrimary == old(isPrimary)
    {
      if !inited {
        return [];
      }
      Compact();
      list := Take(data, TopNSize(subscribed));
    }

    /** `getHashs`: every compacted hash, in rank order. */
    method GetHashs() returns (result: seq<string>)
      modifies this
      ensures !old(inited) || old(data) == [] ==> result == [] && State() == old(State())
      ensures old(inited) && old(data) != [] ==> State() == Compacted(old(State()))
                                                 && result == Hashes(data)
      ensures username == old(username) && inited == old(inited) && isPrimary == old(isPrimary)
    {
      if !inited || |data| == 0 {
        return [];
      }
      Compact();
      result := [];
      for i := 0 to |data|
        invariant result == Hashes(data[..i])
      {
        assert data[..i + 1][..i] == data[..i];
        result := result + [data[i].hash];
      }
      assert data[..|data|] == data;
    }

    /** `save`: nothing is written before `init`, for a non-primary user
        without a subscription, or after a cancel; otherwise the compacted
        list and its date (`now`, the locale date text) are saved. */
    method Save(cache: WebCache, subscribed: bool, cancelLoad: bool, now: string)
      modifies this, cache
      ensures var skip := !old(inited) || (!old(isPrimary) && !subscribed) || cancelLoad;
              (skip ==> State() == old(State()) && cache.entries == old(cache.entries))
              && (!skip ==> State() == Compacted(old(State()))
                            && cache.entries == old(cache.entries)[CacheKey(username, TOPVIEWS) := TopList(data)]
                                                                  [CacheKey(username, LASTMODTOPVIEWS) := Text(now)])
      ensures username == old(username) && inited == old(inited) && isPrimary == old(isPrimary)
    {
      if !inited {
        return;
      }
      if !isPrimary && !subscribed {
        return;
      }
      if cancelLoad {
        return;
      }
      Compact();
      cache.PutSaved(username, TOPVIEWS, TopList(data));
      cache.PutSaved(username, LASTMODTOPVIEWS, Text(now));
    }
  }

  /** The compacted list has no hash twice and is non-increasing. */
  lemma CompactListShape(s: seq<Entry>)
    ensures NoDupHashes(CompactList(s)) && SortedDesc(CompactList(s))
  {
    DedupNoDup(s);
    SortNoDup(Dedup(s));
    SortDescSpec(Dedup(s));
  }

  /** Every entry the compaction keeps comes from the list. */
  lemma CompactListFrom(s: seq<Entry>, x: Entry)
    requires x in CompactList(s)
    ensures exists k :: 0 <= k < |s| && s[k].hash == x.hash
  {
    CompactKeepsOnlyDedup(s, x);
    DedupOnlyFirst(s, x);
    var k :| 0 <= k < |s| && FirstOcc(s, k) && s[k] == x;
  }

  /** What `getHashs` reports after a compaction: every kept entry's hash,
      each once, in non-increasing order of views. */
  lemma HashesOfCompacted(st: TopState)
    requires st.data != []
    ensures var r := Compacted(st);
            var h := Hashes(r.data);
            |h| == |r.data| <= TOP_N_SAVE_SIZE
            && (forall i, j :: 0 <= i < j < |h| ==> h[i] != h[j])
            && (forall i, j :: 0 <= i < j < |h| ==> r.data[i].views >= r.data[j].views)
            && forall i :: 0 <= i < |h| ==> exists k :: 0 <= k < |st.data| && st.data[k].hash == h[i]
  {
    var r := Compacted(st);
    assert r.data == CompactList(st.data);
    CompactListShape(st.data);
    forall i | 0 <= i < |r.data|
      ensures exists k :: 0 <= k < |st.data| && st.data[k].hash == r.data[i].hash
    {
      CompactListFrom(st.data, r.data[i]);
    }
  }
}
