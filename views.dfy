/** Per-image view counts (`ImgViewsClass`) and the per-user running total
    of all views (`ViewSumSinglton`). The total is kept equal to the sum of
    the map by subtracting a hash's old count before adding its new one. */
module Views {
  import opened Records
  import opened Cache
  import opened Numbers

  const MIN_VIEW_THRESHOLD := 50

  /** Sum of all counts of a map. */
  ghost function MapTotal(m: map<string, int>): int
    decreases |m.Keys|
  {
    if m == map[] then 0
    else
      var k :| k in m;
      m[k] + MapTotal(m - {k})
  }

  /** The total does not depend on which key is taken out first. */
  lemma {:induction false} MapTotalRemove(m: map<string, int>, k: string)
    requires k in m
    ensures MapTotal(m) == m[k] + MapTotal(m - {k})
    decreases |m.Keys|
  {
    var j :| j in m && MapTotal(m) == m[j] + MapTotal(m - {j});
    if j != k {
      assert (m - {j}).Keys == m.Keys - {j};
      assert (m - {k}).Keys == m.Keys - {k};
      MapTotalRemove(m - {j}, k);
      MapTotalRemove(m - {k}, j);
      assert m - {j} - {k} == m - {k} - {j};
    }
  }

  /** Setting one count moves the total by the difference. */
  lemma MapTotalUpdate(m: map<string, int>, k: string, v: int)
    ensures MapTotal(m[k := v]) == MapTotal(m) - (if k in m then m[k] else 0) + v
  {
    MapTotalRemove(m[k := v], k);
    assert m[k := v] - {k} == m - {k};
    if k in m {
      MapTotalRemove(m, k);
    } else {
      assert m - {k} == m;
    }
  }

  /** `ViewSumSinglton`: the running view total of each user. */
  class ViewSumLedger {
    var sums: map<string, int>

    constructor ()
      ensures sums == map[]
    {
      sums := map[];
    }

    /** `init`: the already-loaded test has an empty branch, so the saved
        total is read again on every call, digits only, '' giving 0. */
    method Init(username: string, cache: WebCache)
      modifies this
      ensures sums == old(sums)[username := StringToBigInt(TextOf(cache.Saved(username, VIEWSSUM)))]
    {
      var saved := cache.GetSaved(username, VIEWSSUM);
      sums := sums[username := StringToBigInt(TextOf(saved))];
    }

    /** `save`: the formatted total of a loaded user is written; nothing is
        written for '' or for a user never loaded. */
    method Save(username: string, cache: WebCache)
      modifies cache
      ensures username != "" && username in sums ==>
                cache.entries == old(cache.entries)[CacheKey(username, VIEWSSUM) := Text(BigIntToString(sums[username]))]
      ensures username == "" || username !in sums ==> cache.entries == old(cache.entries)
    {
      if username == "" {
      } else if username !in sums {
      } else {
        cache.PutSaved(username, VIEWSSUM, Text(BigIntToString(sums[username])));
      }
    }

    /** `addViews`; a user with no total makes the addition throw, which
        callers rule out by loading the user first. */
    method AddViews(username: string, value: int)
      requires username in sums
      modifies this
      ensures sums == old(sums)[username := old(sums)[username] + value]
    {
      sums := sums[username := sums[username] + value];
    }

    /** `subViews` */
    method SubViews(username: string, value: int)
      requires username in sums
      modifies this
      ensures sums == old(sums)[username := old(sums)[username] - value]
    {
      AddViews(username, -1 * value);
    }

    /** `getViewsDisplay`: reloads the user's total and formats it. */
    method GetViewsDisplay(username: string, cache: WebCache) returns (display: string)
      modifies this
      ensures sums == old(sums)[username := StringToBigInt(TextOf(cache.Saved(username, VIEWSSUM)))]
      ensures display == BigIntToString(sums[username])
    {
      Init(username, cache);
      display := BigIntToString(sums[username]);
    }
  }

  /** The text of a saved entry ('' for anything else). */
  function TextOf(b: Blob): string
  {
    match b
    case Text(s) => s
    case _ => ""
  }

  /** The store after `ImgViewsClass.save` when the load was not cancelled:
      the counts and their date are written, then the user's formatted total
      when one is loaded for a named user. */
  function ViewsSaved(entries: map<string, Blob>, username: string, views: map<string, int>,
                      sums: map<string, int>, now: string): map<string, Blob>
  {
    var written := entries[CacheKey(username, IMGVIEWS) := ViewsMap(views)]
                          [CacheKey(username, LASTMODIMAGES) := Text(now)];
    if username != "" && username in sums
    then written[CacheKey(username, VIEWSSUM) := Text(BigIntToString(sums[username]))]
    else written
  }

  /** The saved total reads back as written, for any non-negative total. */
  lemma LedgerRoundTrip(total: nat)
    ensures StringToBigInt(TextOf(Text(BigIntToString(total)))) == total
  {
    StringToBigIntOfFormatted(total);
  }

  // ---- ImgViewsClass ----

  /** One `{hash: views}` pair offered to `addHashes`: the map after it and
      whether it was applied. */
  function ApplyEntry(m: map<string, int>, e: Entry): (r: (map<string, int>, bool))
    ensures e.views == 0 ==> r == (m, false)
    ensures e.views != 0 && e.hash in m && m[e.hash] == e.views ==> r == (m, false)
    ensures e.views != 0 && e.hash in m && m[e.hash] != e.views ==> r == (m[e.hash := e.views], true)
    ensures e.views != 0 && e.hash !in m && e.views < MIN_VIEW_THRESHOLD ==> r == (m, false)
    ensures e.views >= MIN_VIEW_THRESHOLD && e.hash !in m ==> r == (m[e.hash := e.views], true)
  {
    if e.views == 0 then (m, false)
    else if e.hash in m then
      if m[e.hash] == e.views then (m, false) else (m[e.hash := e.views], true)
    else if e.views < MIN_VIEW_THRESHOLD then (m, false)
    else (m[e.hash := e.views], true)
  }

  /** The entries of all rows, in order. */
  function Flatten(rows: seq<seq<Entry>>): seq<Entry>
  {
    if rows == [] then [] else Flatten(rows[..|rows| - 1]) + rows[|rows| - 1]
  }

  /** `addHashes` over a sequence of entries: the final map and the number
      of entries applied. */
  function ApplyAll(m: map<string, int>, es: seq<Entry>): (r: (map<string, int>, nat))
    ensures r.1 <= |es|
  {
    if es == [] then (m, 0)
    else
      var prior := ApplyAll(m, es[..|es| - 1]);
      var step := ApplyEntry(prior.0, es[|es| - 1]);
      (step.0, prior.1 + (if step.1 then 1 else 0))
  }

  /** Applying entries in two parts is applying them all; the counts add up. */
  lemma {:induction false} ApplyAllConcat(m: map<string, int>, a: seq<Entry>, b: seq<Entry>)
    ensures var first := ApplyAll(m, a);
            var second := ApplyAll(first.0, b);
            && ApplyAll(m, a + b).0 == second.0
            && ApplyAll(m, a + b).1 == first.1 + second.1
    decreases |b|
  {
    if b == [] {
      assert a + b == a;
    } else {
      assert (a + b)[..|a + b| - 1] == a + b[..|b| - 1];
      ApplyAllConcat(m, a, b[..|b| - 1]);
    }
  }

  /** An applied entry moves the total by its new count less its old one;
      an entry not applied leaves the map as it was. */
  lemma ApplyEntryTotal(m: map<string, int>, e: Entry)
    ensures var r := ApplyEntry(m, e);
            (r.1 ==> MapTotal(r.0) == MapTotal(m) - (if e.hash in m then m[e.hash] else 0) + e.views)
            && (!r.1 ==> r.0 == m)
  {
    MapTotalUpdate(m, e.hash, e.views);
  }

  /** Every stored count is a non-zero count, and a hash first stored had at
      least the threshold: so a map built from nothing has no zero counts. */
  lemma {:induction false} ApplyAllNoZero(m: map<string, int>, es: seq<Entry>)
    requires forall h :: h in m ==> m[h] != 0
    ensures forall h :: h in ApplyAll(m, es).0 ==> ApplyAll(m, es).0[h] != 0
  {
    if es != [] {
      ApplyAllNoZero(m, es[..|es| - 1]);
    }
  }

  /** Applying the same entries twice changes nothing the second time. */
  lemma {:induction false} ApplyEntryIdempotent(m: map<string, int>, e: Entry)
    ensures ApplyEntry(ApplyEntry(m, e).0, e).0 == ApplyEntry(m, e).0
    ensures !ApplyEntry(ApplyEntry(m, e).0, e).1
  {
  }

  /** `ImgViewsClass`: the counts of one user's images, loaded from and
      saved to the store, with the shared ledger kept in step. */
  class ImgViews {
    var username: string
    var inited: bool
    var isPrimary: bool
    var views: map<string, int>
    const ledger: ViewSumLedger

    constructor (ledger: ViewSumLedger)
      ensures this.ledger == ledger
      ensures username == "" && !inited && isPrimary && views == map[]
    {
      this.ledger := ledger;
      username := "";
      inited := false;
      isPrimary := true;
      views := map[];
    }

    /** How far the user's total is from the sum of the counts: what
        `addHashes` keeps constant. */
    ghost function Offset(): int
      reads this, ledger
      requires username in ledger.sums
    {
      ledger.sums[username] - MapTotal(views)
    }

    /** `init`: base initialisation once, then the saved counts are loaded
        and the ledger loads the total of `name` (the argument, not the
        resolved user). */
    method Init(name: string, currentUser: string, cache: WebCache)
      modifies this, ledger
      ensures old(inited) ==> username == old(username) && isPrimary == old(isPrimary)
      ensures !old(inited) ==> username == (if name != "" then name else currentUser)
                               && isPrimary == (currentUser == username)
      ensures inited
      ensures views == (match cache.Saved(username, IMGVIEWS)
                        case ViewsMap(m) => m
                        case _ => map[])
      ensures ledger.sums == old(ledger.sums)[name := StringToBigInt(TextOf(cache.Saved(name, VIEWSSUM)))]
    {
      if !inited {
        username := if name != "" then name else currentUser;
        isPrimary := currentUser == username;
        inited := true;
      }
      var saved := cache.GetSaved(username, IMGVIEWS);
      views := match saved
               case ViewsMap(m) => m
               case _ => map[];
      ledger.Init(name, cache);
    }

    /** `addHashes`: returns the number of entries applied; the user's total
        moves by exactly what the map's total moves, and every other user's
        total is untouched. */
    method AddHashes(rows: seq<seq<Entry>>) returns (counter: nat)
      requires username in ledger.sums
      modifies this, ledger
      ensures views == ApplyAll(old(views), Flatten(rows)).0
      ensures counter == ApplyAll(old(views), Flatten(rows)).1
      ensures username in ledger.sums
      ensures Offset() == old(Offset())
      ensures forall u :: u in old(ledger.sums) && u != username ==> u in ledger.sums && ledger.sums[u] == old(ledger.sums[u])
      ensures ledger.sums.Keys == old(ledger.sums.Keys)
      ensures username == old(username) && inited == old(inited) && isPrimary == old(isPrimary)
    {
      ghost var v0, sums0, off0 := views, ledger.sums, Offset();
      ghost var u0, i0, p0 := username, inited, isPrimary;
      counter := 0;
      for r := 0 to |rows|
        invariant views == ApplyAll(v0, Flatten(rows[..r])).0
        invariant counter == ApplyAll(v0, Flatten(rows[..r])).1
        invariant Kept(sums0, off0, u0, i0, p0)
      {
        ghost var before := Flatten(rows[..r]);
        assert rows[..r + 1][..r] == rows[..r];
        assert Flatten(rows[..r + 1]) == before + rows[r];
        ApplyAllConcat(v0, before, rows[r]);
        var applied := AddRow(rows[r], sums0, off0, u0, i0, p0);
        counter := counter + applied;
      }
      assert rows[..|rows|] == rows;
    }

    /** The user's total is still `off0` away from the sum of the counts, and
        nothing else about the object or the other users' totals moved. */
    ghost predicate Kept(sums0: map<string, int>, off0: int, u0: string, i0: bool, p0: bool)
      reads this, ledger
    {
      && username == u0 && inited == i0 && isPrimary == p0
      && username in ledger.sums && ledger.sums.Keys == sums0.Keys
      && Offset() == off0
      && (forall u :: u in sums0 && u != username ==> ledger.sums[u] == sums0[u])
    }

    /** The inner loop of `addHashes`, over the pairs of one row. */
    method AddRow(row: seq<Entry>, ghost sums0: map<string, int>, ghost off0: int,
                  ghost u0: string, ghost i0: bool, ghost p0: bool) returns (applied: nat)
      requires Kept(sums0, off0, u0, i0, p0)
      modifies this, ledger
      ensures Kept(sums0, off0, u0, i0, p0)
      ensures views == ApplyAll(old(views), row).0
      ensures applied == ApplyAll(old(views), row).1
    {
      ghost var v1 := views;
      applied := 0;
      for k := 0 to |row|
        invariant views == ApplyAll(v1, row[..k]).0
        invariant applied == ApplyAll(v1, row[..k]).1
        invariant Kept(sums0, off0, u0, i0, p0)
      {
        assert row[..k + 1][..k] == row[..k];
        var ok := AddOne(row[k]);
        if ok {
          applied := applied + 1;
        }
      }
      assert row[..|row|] == row;
    }

    /** The body of the inner loop of `addHashes`, for one pair. */
    method AddOne(e: Entry) returns (applied: bool)
      requires username in ledger.sums
      modifies this, ledger
      ensures views == ApplyEntry(old(views), e).0
      ensures applied == ApplyEntry(old(views), e).1
      ensures username in ledger.sums && ledger.sums.Keys == old(ledger.sums.Keys)
      ensures Offset() == old(Offset())
      ensures forall u :: u in old(ledger.sums) && u != username ==> ledger.sums[u] == old(ledger.sums[u])
      ensures username == old(username) && inited == old(inited) && isPrimary == old(isPrimary)
    {
      ApplyEntryTotal(views, e);
      if e.views == 0 {
        return false;
      }
      if e.hash in views {
        var currentval := views[e.hash];
        if currentval == e.views {
          return false;
        }
        ledger.SubViews(username, currentval);
      } else if e.views < MIN_VIEW_THRESHOLD {
        return false;
      }
      views := views[e.hash := e.views];
      ledger.AddViews(username, e.views);
      applied := true;
    }

    /** `addHash` */
    method AddHash(hash: string, count: int)
      requires username in ledger.sums
      modifies this, ledger
      ensures views == ApplyEntry(old(views), Entry(hash, count)).0
      ensures username == old(username) && inited == old(inited) && isPrimary == old(isPrimary)
      ensures username in ledger.sums
      ensures Offset() == old(Offset())
    {
      var _ := AddOne(Entry(hash, count));
    }

    /** `save`: unless the load was cancelled, the counts, their date (`now`)
        and the user's total are written; in every case the counts are then
        dropped and the object must be initialised again. */
    method Save(cache: WebCache, cancelLoad: bool, now: string)
      modifies this, cache
      ensures !cancelLoad ==>
                var written := old(cache.entries)[CacheKey(username, IMGVIEWS) := ViewsMap(old(views))]
                                                 [CacheKey(username, LASTMODIMAGES) := Text(now)];
                cache.entries == (if username != "" && username in ledger.sums
                                  then written[CacheKey(username, VIEWSSUM) := Text(BigIntToString(ledger.sums[username]))]
                                  else written)
      ensures cancelLoad ==> cache.entries == old(cache.entries)
      ensures views == map[] && !inited
      ensures username == old(username) && isPrimary == old(isPrimary)
    {
      if !cancelLoad {
        cache.PutSaved(username, IMGVIEWS, ViewsMap(views));
        cache.PutSaved(username, LASTMODIMAGES, Text(now));
        ledger.Save(username, cache);
      }
      views := map[];
      inited := false;
    }
  }
}
