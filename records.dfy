/** The values the extension keeps: view entries, flattened post records and
    the typed contents of the saved blobs. */
module Records {

  /** One `{hash: views}` pair. */
  datatype Entry = Entry(hash: string, views: int)

  /** The flat record built for every fetched post (`_allreplies`). */
  datatype PostRecord = PostRecord(
    hash: string, title: string, points: int, ups: int, downs: int, views: int,
    commentCount: int, favoriteCount: int, viral: bool, timestamp: string)

  /** What a cache entry holds once parsed. `Text("")` is what reading an
      absent key gives. */
  datatype Blob =
    | Text(s: string)
    | TopList(entries: seq<Entry>)
    | ViewsMap(views: map<string, int>)
    | PostList(posts: seq<PostRecord>)
}
