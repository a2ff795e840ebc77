/** The extension's saved data: one Cache Storage namespace whose entries are
    named `/imgurgeeks_extension/{username}.{key}.text`, the helpers that
    read, write and back up entries, the listing of the users that have
    saved posts, and the data-version check run at start-up. */
module Cache {
  import opened Wrappers
  import opened Records

  const KeyPrefix := "/imgurgeeks_extension/"
  /** The origin the saved entries' request URLs resolve against. */
  const Site := "https://imgur.com"

  const DATAVERSION := "DATAVERSION"
  const POSTSDATA := "POSTSDATA"
  const LASTMODPOSTS := "LASTMODPOSTS"
  const SUMMARYPOSTS := "SUMMARYPOSTS"
  const TOPVIEWS := "TOPVIEWS"
  const LASTMODTOPVIEWS := "LASTMODTOPVIEWS"
  const IMGVIEWS := "IMGVIEWS"
  const LASTMODIMAGES := "LASTMODIMAGES"
  const VIEWSSUM := "VIEWSSUM"
  const PRIORTOPVIEWS := "PRIORTOPVIEWS"
  const PRIORTOPVIEWSLASTMOD := "PRIORTOPVIEWSLASTMOD"
  const PRIORSUMMARYPOSTS := "PRIORSUMMARYPOSTS"

  const DATA_VERSION := "v2.1"

  /** Name of the entry holding `key` for `username`. */
  function CacheKey(username: string, key: string): string
  {
    KeyPrefix + username + "." + key + ".text"
  }

  /** Different keys of one user name different entries. */
  lemma CacheKeyDistinct(username: string, k1: string, k2: string)
    requires k1 != k2
    ensures CacheKey(username, k1) != CacheKey(username, k2)
  {
    var p := KeyPrefix + username + ".";
    assert CacheKey(username, k1) == p + (k1 + ".text");
    assert CacheKey(username, k2) == p + (k2 + ".text");
    if |k1| == |k2| {
      assert CacheKey(username, k1)[|p|..|p| + |k1|] == k1;
      assert CacheKey(username, k2)[|p|..|p| + |k2|] == k2;
    }
  }

  /** Value read for a name: the stored blob, or '' when there is none. */
  function Lookup(entries: map<string, Blob>, name: string): Blob
  {
    if name in entries then entries[name] else Text("")
  }

  /** A blob `copySavedStr` copies: anything but the empty text. A
      serialised list or map is never empty. */
  predicate NonEmpty(b: Blob)
  {
    b != Text("")
  }

  /** `copySavedStr`: backs `oldkey` up under `newkey` when it holds
      something; otherwise the store is left as it was. */
  function CopySaved(entries: map<string, Blob>, username: string, oldkey: string, newkey: string): (r: map<string, Blob>)
    ensures NonEmpty(Lookup(entries, CacheKey(username, oldkey))) ==>
              r.Keys == entries.Keys + {CacheKey(username, newkey)}
              && Lookup(r, CacheKey(username, newkey)) == Lookup(entries, CacheKey(username, oldkey))
              && forall n :: n in entries && n != CacheKey(username, newkey) ==> r[n] == entries[n]
    ensures !NonEmpty(Lookup(entries, CacheKey(username, oldkey))) ==> r == entries
  {
    var old_data := Lookup(entries, CacheKey(username, oldkey));
    if NonEmpty(old_data) then entries[CacheKey(username, newkey) := old_data] else entries
  }

  /** The browser's cache for the extension, as a map from entry name to
      its (parsed) content. */
  class WebCache {
    var entries: map<string, Blob>

    constructor (initial: map<string, Blob>)
      ensures entries == initial
    {
      entries := initial;
    }

    function Saved(username: string, key: string): Blob
      reads this
    {
      Lookup(entries, CacheKey(username, key))
    }

    /** `putSavedStr` */
    method PutSaved(username: string, key: string, value: Blob)
      modifies this
      ensures entries == old(entries)[CacheKey(username, key) := value]
    {
      entries := entries[CacheKey(username, key) := value];
    }

    /** `getSavedStr` with the default ''. */
    method GetSaved(username: string, key: string) returns (value: Blob)
      ensures value == Saved(username, key)
    {
      value := Lookup(entries, CacheKey(username, key));
    }

    /** `copySavedStr` */
    method CopySavedStr(username: string, oldkey: string, newkey: string)
      modifies this
      ensures entries == CopySaved(old(entries), username, oldkey, newkey)
    {
      var old_data := GetSaved(username, oldkey);
      if NonEmpty(old_data) {
        PutSaved(username, newkey, old_data);
      }
    }

    /** `backupImagesData`: keeps the current top list and its date as the
        prior ones, for the rank-change display. */
    method BackupImagesData(username: string)
      modifies this
      ensures entries == CopySaved(CopySaved(old(entries), username, TOPVIEWS, PRIORTOPVIEWS),
                                   username, LASTMODIMAGES, PRIORTOPVIEWSLASTMOD)
    {
      CopySavedStr(username, TOPVIEWS, PRIORTOPVIEWS);
      CopySavedStr(username, LASTMODIMAGES, PRIORTOPVIEWSLASTMOD);
    }

    /** The data-version check of `main`, as written. */
    method CheckDataVersion() returns (wasReset: bool)
      modifies this
      ensures (wasReset, entries) == VersionCheck(old(entries))
    {
      var saved := GetSaved(DATAVERSION, DATAVERSION);
      wasReset := false;
      if saved != Text("") && saved != Text(DATA_VERSION) {
        entries := map[];
        PutSaved(DATAVERSION, DATAVERSION, Text(DATA_VERSION));
        wasReset := true;
      }
    }
  }

  /** The start-up version check as written: data saved under another
      version marker is all deleted and the current marker saved; a store
      with no marker, or with the current one, is left as it is. */
  function VersionCheck(entries: map<string, Blob>): (r: (bool, map<string, Blob>))
    ensures var saved := Lookup(entries, CacheKey(DATAVERSION, DATAVERSION));
            r.0 <==> saved != Text("") && saved != Text(DATA_VERSION)
    ensures r.0 ==> r.1 == map[CacheKey(DATAVERSION, DATAVERSION) := Text(DATA_VERSION)]
    ensures !r.0 ==> r.1 == entries
  {
    var saved := Lookup(entries, CacheKey(DATAVERSION, DATAVERSION));
    if saved != Text("") && saved != Text(DATA_VERSION) then
      (true, map[CacheKey(DATAVERSION, DATAVERSION) := Text(DATA_VERSION)])
    else
      (false, entries)
  }

  /** As written, a store that has never been reset never receives the
      version marker, so a later version change cannot detect its data. */
  lemma VersionMarkerMissingAfterFreshCheck()
    ensures var r := VersionCheck(map[CacheKey("alice", POSTSDATA) := Text("[]")]);
            !r.0 && Lookup(r.1, CacheKey(DATAVERSION, DATAVERSION)) == Text("")
  {
    var store := map[CacheKey("alice", POSTSDATA) := Text("[]")];
    assert CacheKey("alice", POSTSDATA) != CacheKey(DATAVERSION, DATAVERSION) by {
      assert CacheKey("alice", POSTSDATA)[|KeyPrefix|] == 'a';
      assert CacheKey(DATAVERSION, DATAVERSION)[|KeyPrefix|] == 'D';
    }
    assert Lookup(store, CacheKey(DATAVERSION, DATAVERSION)) == Text("");
  }

  /** The check as the start-up comment describes it: the marker is saved
      whenever it is not the current one, and data is deleted only when an
      older marker was present. */
  function VersionCheckFixed(entries: map<string, Blob>): (r: (bool, map<string, Blob>))
    ensures Lookup(r.1, CacheKey(DATAVERSION, DATAVERSION)) == Text(DATA_VERSION)
    ensures var saved := Lookup(entries, CacheKey(DATAVERSION, DATAVERSION));
            r.0 <==> saved != Text("") && saved != Text(DATA_VERSION)
    ensures r.0 ==> r.1.Keys == {CacheKey(DATAVERSION, DATAVERSION)}
    ensures !r.0 ==> r.1.Keys == entries.Keys + {CacheKey(DATAVERSION, DATAVERSION)}
                     && forall n :: n in entries && n != CacheKey(DATAVERSION, DATAVERSION) ==> r.1[n] == entries[n]
  {
    var saved := Lookup(entries, CacheKey(DATAVERSION, DATAVERSION));
    var reset := saved != Text("") && saved != Text(DATA_VERSION);
    var kept := if reset then map[] else entries;
    (reset, kept[CacheKey(DATAVERSION, DATAVERSION) := Text(DATA_VERSION)])
  }

  // ---- Listing the users with saved posts ----

  /** `\w` */
  predicate IsWordChar(c: char)
  {
    ('a' <= c <= 'z') || ('A' <= c <= 'Z') || ('0' <= c <= '9') || c == '_'
  }

  /** The pattern text before the user name, `https://imgur.com/imgurgeeks_extension/`
      spelled out in the regular expression; every '.' in it (and in the
      suffix `.POSTSDATA.text`) is an unescaped regular-expression dot. */
  const UrlPatternHead := Site + KeyPrefix
  const UrlPatternTail := "." + POSTSDATA + ".text"

  /** `.` matches any character but a line terminator. */
  predicate PatternCharMatches(p: char, c: char)
  {
    if p == '.' then c != '\n' && c != '\r' && c != '\U{2028}' && c != '\U{2029}' else p == c
  }

  /** Does pattern text `p` match `u` at position `i`? */
  predicate PatternAt(u: string, i: nat, p: string)
  {
    i + |p| <= |u| && forall k :: 0 <= k < |p| ==> PatternCharMatches(p[k], u[i + k])
  }

  /** Number of word characters from position `j` on. */
  function WordRun(u: string, j: nat): (n: nat)
    ensures j + n <= |u| || n == 0
    decreases |u| - j
  {
    if j < |u| && IsWordChar(u[j]) then 1 + WordRun(u, j + 1) else 0
  }

  /** Backtracking of the greedy `([\w]+)`: the longest group length, at
      most `n`, after which the tail of the pattern matches. */
  function GroupLength(u: string, j: nat, n: nat): (r: Option<nat>)
    ensures r.Some? ==> 1 <= r.value <= n
  {
    if n == 0 then None
    else if PatternAt(u, j + n, UrlPatternTail) then Some(n)
    else GroupLength(u, j, n - 1)
  }

  /** The first capture of the leftmost match starting at `i` or later. */
  function MatchFrom(u: string, i: nat): (r: Option<string>)
    decreases |u| + 1 - i
  {
    if i > |u| then None
    else
      var j := i + |UrlPatternHead|;
      if PatternAt(u, i, UrlPatternHead) && GroupLength(u, j, WordRun(u, j)).Some? then
        var n := GroupLength(u, j, WordRun(u, j)).value;
        Some(u[j..j + n])
      else MatchFrom(u, i + 1)
  }

  /** The user name `listAllSavedUsernames` takes from one entry URL. */
  function UsernameOf(url: string): Option<string>
  {
    MatchFrom(url, 0)
  }

  /** Request URL of the posts entry of `username`. */
  function PostsUrl(username: string): string
  {
    Site + CacheKey(username, POSTSDATA)
  }

  predicate IsWordName(u: string)
  {
    |u| >= 1 && forall k :: 0 <= k < |u| ==> IsWordChar(u[k])
  }

  /** The name of a user made of word characters is read back from the URL
      of their posts entry. */
  lemma UsernameOfPostsUrl(u: string)
    requires IsWordName(u)
    ensures UsernameOf(PostsUrl(u)) == Some(u)
  {
    assert PostsUrl(u) == UrlPatternHead + u + UrlPatternTail;
    MatchOfShape(PostsUrl(u), u);
  }

  lemma MatchOfShape(url: string, u: string)
    requires IsWordName(u) && url == UrlPatternHead + u + UrlPatternTail
    ensures MatchFrom(url, 0) == Some(u)
  {
    var h, t := UrlPatternHead, UrlPatternTail;
    var j := |h|;
    assert PatternAt(url, 0, h) by {
      assert url[0..j] == h;
      LiteralMatches(url, 0, h);
    }
    assert WordRun(url, j) == |u| by {
      assert url[j..j + |u|] == u;
      assert url[j + |u|] == t[0] == '.';
      WordRunOfName(url, j, u);
    }
    assert PatternAt(url, j + |u|, t) by {
      assert url[j + |u|..j + |u| + |t|] == t;
      LiteralMatches(url, j + |u|, t);
    }
    assert url[j..j + |u|] == u;
  }

  /** Pattern text matches its own characters: a '.' is not a line
      terminator. */
  lemma LiteralMatches(url: string, i: nat, p: string)
    requires i + |p| <= |url| && url[i..i + |p|] == p
    ensures PatternAt(url, i, p)
  {
    forall k | 0 <= k < |p|
      ensures PatternCharMatches(p[k], url[i + k])
    {
      assert url[i + k] == url[i..i + |p|][k];
    }
  }

  lemma {:induction false} WordRunOfName(url: string, j: nat, u: string)
    requires IsWordName(u) && j + |u| < |url| && url[j..j + |u|] == u && !IsWordChar(url[j + |u|])
    ensures WordRun(url, j) == |u|
    decreases |u|
  {
    assert url[j] == u[0];
    if |u| == 1 {
      assert WordRun(url, j + 1) == 0;
    } else {
      assert url[j + 1..j + 1 + |u[1..]|] == u[1..];
      WordRunOfName(url, j + 1, u[1..]);
    }
  }

  /** `listAllSavedUsernames`: the names taken from the entry URLs, in order. */
  method ListAllSavedUsernames(urls: seq<string>) returns (names: seq<string>)
    ensures names == NamesIn(urls)
  {
    names := [];
    for i := 0 to |urls|
      invariant names == NamesIn(urls[..i])
    {
      assert urls[..i + 1][..i] == urls[..i];
      var m := UsernameOf(urls[i]);
      if m.Some? {
        names := names + [m.value];
      }
    }
    assert urls[..|urls|] == urls;
  }

  function NamesIn(urls: seq<string>): seq<string>
  {
    if urls == [] then []
    else
      var m := UsernameOf(urls[|urls| - 1]);
      NamesIn(urls[..|urls| - 1]) + (if m.Some? then [m.value] else [])
  }

  function PostsUrls(users: seq<string>): (r: seq<string>)
    ensures |r| == |users| && forall i :: 0 <= i < |users| ==> r[i] == PostsUrl(users[i])
  {
    if users == [] then [] else PostsUrls(users[..|users| - 1]) + [PostsUrl(users[|users| - 1])]
  }

  /** Listing the posts entries of word-named users gives those users back. */
  lemma {:induction false} NamesOfPostsUrls(users: seq<string>)
    requires forall i :: 0 <= i < |users| ==> IsWordName(users[i])
    ensures NamesIn(PostsUrls(users)) == users
  {
    if users != [] {
      var urls := PostsUrls(users);
      var init, last := users[..|users| - 1], users[|users| - 1];
      assert urls[..|urls| - 1] == PostsUrls(init);
      assert urls[|urls| - 1] == PostsUrl(last);
      NamesOfPostsUrls(init);
      UsernameOfPostsUrl(last);
      assert NamesIn(urls) == NamesIn(PostsUrls(init)) + [last];
      assert users == init + [last];
    }
  }
}
