# imgurgeeks statistics core, modelled in Dafny

This project models the core of the imgurgeeks browser extension's
statistics page and its post-timer button. The statistics page loads a
user's posts or images from imgur, page by page. It then:

- keeps a running count of each image's views;
- keeps a list of the user's most viewed images (the "top 100" tracker);
- keeps the user's total of views;
- merges freshly fetched post records into the records saved earlier;
- saves all of this in the browser's web cache.

The page also summarises the saved records column by column and shows how
each total changed against the prior run. It shows how each top-list entry
moved in rank, and exports the per-image counts as tab-separated text. The
post-timer button reads a delay such as `1h30m` and counts it down once
a second before it publishes the post.

Modules, one per component:

| module | component |
|---|---|
| `Records`, `Wrappers` | view entries, flattened post records, the typed contents of a cache entry, `Option` |
| `Numbers` | `stringToBigInt`, `bigIntToString` (en-US digit grouping) and the `BigInt()` literal grammar behind `isNumeric` |
| `Cache` | the web cache as an object over a map of entries; the cache key, copy-if-present, the data-version check, the listing of saved users |
| `TopN` | `Top100TrackerClass`: admission against the running minimum, compaction (first occurrence wins, sort by views, keep 300), saving |
| `Views` | `ViewSumSinglton` (per-user view totals) and `ImgViewsClass` (per-image counts, `addHashes`) |
| `Fetch` | the nested fetch loop of `fetchDataFromImgurStatic`: rounds, pages, pacing, data end and cancel |
| `Posts` | `LoadPostDataClass`: one page of posts into the tracker, the counts and the records; `_saveData` with the merge into saved records |
| `Images` | `LoadImagesDataClass`: the hash queue seeded from the tracker and drained in batches of 60 |
| `Rank` | the rank-change marks against the prior top list |
| `Summary` | `processSummaryData` and the delta shown beside each total |
| `Export` | the export of the per-image counts as tab-separated rows |
| `Mime` | `mapMimeTypeToExt` |
| `PostTimer` | the delay parse, the countdown tick and the click on the post-timer button |

Values live in Dafny datatypes. Objects whose fields the extension updates
in place are classes with `modifies` frames: `WebCache`, `Top100Tracker`,
`ViewSumLedger`, `ImgViews`, `PostLoader`, `ImageLoader` and `Countdown`.
Inputs that come from the outside are parameters:

- fetched pages and replies, where `None` is a failed fetch;
- the logged-in user;
- the clock's date text;
- the answer to the prompt;
- the state of the cancel button at each step.

## Model

| member | source | states |
|---|---|---|
| Numbers.KeepDigits | imgurgeeks-extention/src/imgurgeeks_stats.js:353 | stripping non-digits leaves only digits and never lengthens the text |
| Numbers.KeepDigitsConcat | imgurgeeks-extention/src/imgurgeeks_stats.js:353 | stripping non-digits distributes over concatenation |
| Numbers.GroupDigits | imgurgeeks-extention/src/imgurgeeks_stats.js:341-357 | the digits of a grouped non-negative number denote that number |
| Numbers.StringToBigIntOfFormatted | imgurgeeks-extention/src/imgurgeeks_stats.js:341-357 | `stringToBigInt(bigIntToString(i))` is `i` for non-negative `i` and `-i` for negative `i`: the sign is lost |
| Numbers.FormattedSign | imgurgeeks-extention/src/imgurgeeks_stats.js:341-344 | formatted text is never empty and starts with '-' exactly for negative numbers |
| Numbers.BigIntOfDecimalText | imgurgeeks-extention/src/imgurgeeks_stats.js:326-334 | `BigInt` (so `isNumeric`) accepts the decimal text of every integer and reads back its value |
| Numbers.BigIntToString | imgurgeeks-extention/src/imgurgeeks_stats.js:341-344 | en-US grouping of an integer; its sign and digits are stated by `FormattedSign` and `GroupDigits` |
| Numbers.StringToBigInt | imgurgeeks-extention/src/imgurgeeks_stats.js:351-359 | the digits of the text read as a number, never failing; its value on formatted text is stated by `StringToBigIntOfFormatted` |
| Numbers.BigIntOfString | imgurgeeks-extention/src/imgurgeeks_stats.js:326-334 | the `BigInt()` literal grammar behind `isNumeric`; stated by `BigIntOfDecimalText` |
| Summary.ProcessSummaryData | imgurgeeks-extention/src/imgurgeeks_stats.js:826-858 | the summary has `totalcount` plus exactly the columns with a numeric value in some row; `totalcount` is the formatted row count; each column is its formatted column total |
| Summary.AddRowTotals | imgurgeeks-extention/src/imgurgeeks_stats.js:831-846 | after one row a column is present iff it was before or the row has a numeric value in it; its sum is the old sum (0 when new) plus the row's contribution |
| Summary.PartialStep | imgurgeeks-extention/src/imgurgeeks_stats.js:832-845 | one field adds its contribution to its own column only and opens the column when numeric |
| Summary.RowTotalWithoutColumn | imgurgeeks-extention/src/imgurgeeks_stats.js:836-843 | a row with no numeric value in a column contributes 0 to it |
| Summary.ColumnTotalWithoutColumn | imgurgeeks-extention/src/imgurgeeks_stats.js:830-846 | a column no row has a numeric value in totals 0 |
| Summary.DeltaText | imgurgeeks-extention/src/imgurgeeks_stats.js:1571-1578 | the delta shown beside a total; stated by `DeltaOfNonNegativeTotals` and `DeltaOfNegativeTotalsAsWritten` |
| Summary.FormattedZero | imgurgeeks-extention/src/imgurgeeks_stats.js:1575 | the formatted difference is "0" exactly when the difference is zero |
| Summary.DeltaOfDifference | imgurgeeks-extention/src/imgurgeeks_stats.js:1571-1578 | no delta for a zero difference; otherwise '+' and the digits for a rise, the formatted negative number for a fall |
| Summary.DeltaOfNonNegativeTotals | imgurgeeks-extention/src/imgurgeeks_stats.js:1571-1578 | for non-negative totals a delta is shown iff they differ; it starts with '+' iff the total rose and with '-' iff it fell, and its digits are the size of the change |
| Summary.DeltaOfNegativeTotalsAsWritten | imgurgeeks-extention/src/imgurgeeks_stats.js:1571-1578 | a total of -10 against a prior -5 is shown as "+5" |
| Summary.DeltaSignedOfTotals | imgurgeeks-extention/src/imgurgeeks_stats.js:1571-1578 | read with their sign, totals of any sign give a delta iff they differ, '+' iff the total rose, and the delta reads back as their difference |
| Summary.SignedStringToBigIntOfFormatted | imgurgeeks-extention/src/imgurgeeks_stats.js:341-357 | the signed reading inverts `bigIntToString` for every integer |
| Mime.MimeExt | imgurgeeks-extention/src/imgurgeeks_stats.js:397-404 | jpeg, png and mp4 map to jpg, png and gifv, each iff that type; every other type maps to gif |
| Cache.CacheKey | imgurgeeks-extention/src/imgurgeeks_stats.js:513 | the cache URL of a user's key; injectivity in the key is stated by `CacheKeyDistinct` |
| Cache.CacheKeyDistinct | imgurgeeks-extention/src/imgurgeeks_stats.js:513 | two different keys of one user never name the same cache entry |
| Cache.CopySaved | imgurgeeks-extention/src/imgurgeeks_stats.js:559-571 | a non-empty value under the old key is copied to the new key and nothing else changes; otherwise the store is unchanged |
| Cache.WebCache.constructor | imgurgeeks-extention/src/imgurgeeks_stats.js:2888 | the cache opens on the entries already stored |
| Cache.WebCache.PutSaved | imgurgeeks-extention/src/imgurgeeks_stats.js:511-519 | the entry for user and key gets the value; no other entry changes |
| Cache.WebCache.GetSaved | imgurgeeks-extention/src/imgurgeeks_stats.js:527-536 | the stored value, or the empty text when absent |
| Cache.WebCache.CopySavedStr | imgurgeeks-extention/src/imgurgeeks_stats.js:559-571 | the store becomes `CopySaved` of the old store |
| Cache.WebCache.BackupImagesData | imgurgeeks-extention/src/imgurgeeks_stats.js:669-672 | the top list, then its date, are copied to their "prior" keys |
| Cache.WebCache.CheckDataVersion | imgurgeeks-extention/src/imgurgeeks_stats.js:2894-2901 | the store and the reset flag are those of `VersionCheck` |
| Cache.VersionCheck | imgurgeeks-extention/src/imgurgeeks_stats.js:2894-2901 | reset iff a marker is stored and differs from the current version; a reset leaves only the current marker; otherwise nothing changes |
| Cache.VersionMarkerMissingAfterFreshCheck | imgurgeeks-extention/src/imgurgeeks_stats.js:2892-2901 | a store with data but no marker comes out of the check still without a marker |
| Cache.VersionCheckFixed | imgurgeeks-extention/src/imgurgeeks_stats.js:2892-2901 | after the check the current marker is always stored; data is deleted iff another marker was stored, and otherwise every entry is kept |
| Cache.GroupLength | imgurgeeks-extention/src/imgurgeeks_stats.js:638 | the greedy `(\w+)` group backtracks to a length between 1 and the word run |
| Cache.UsernameOf | imgurgeeks-extention/src/imgurgeeks_stats.js:638 | the user name matched in a cached URL; stated by `UsernameOfPostsUrl` |
| Cache.UsernameOfPostsUrl | imgurgeeks-extention/src/imgurgeeks_stats.js:638-640 | the user name is read back from the posts URL of any word-character name |
| Cache.ListAllSavedUsernames | imgurgeeks-extention/src/imgurgeeks_stats.js:629-645 | the names matched in the cached URLs, in order |
| Cache.NamesOfPostsUrls | imgurgeeks-extention/src/imgurgeeks_stats.js:629-645 | listing the posts URLs of word-named users gives back exactly those users, in order |
| Export.Delimit | imgurgeeks-extention/src/imgurgeeks_stats.js:2201 | the chain of four replaces; stated by `DelimitConcat`, `DelimitPlain` and `DelimitSeparators` |
| Export.ImagesCsv | imgurgeeks-extention/src/imgurgeeks_stats.js:2199-2202 | the exported text of the stored counts; stated by `ExportOfStoredViews` |
| Export.Subst | imgurgeeks-extention/src/imgurgeeks_stats.js:2201 | text without the replaced character is unchanged |
| Export.SubstConcat | imgurgeeks-extention/src/imgurgeeks_stats.js:2201 | a global replace distributes over concatenation |
| Export.DelimitConcat | imgurgeeks-extention/src/imgurgeeks_stats.js:2201 | the chain of four replaces distributes over concatenation |
| Export.DelimitPlain | imgurgeeks-extention/src/imgurgeeks_stats.js:2201 | text without ':', ',', '{' or '}' passes unchanged |
| Export.DelimitSeparators | imgurgeeks-extention/src/imgurgeeks_stats.js:2201 | ':' becomes a tab, ',' a CRLF, and braces vanish |
| Export.MemberRow | imgurgeeks-extention/src/imgurgeeks_stats.js:2199-2202 | one `"hash":count` member becomes one `"hash"<tab>count` row |
| Export.MembersRows | imgurgeeks-extention/src/imgurgeeks_stats.js:2199-2202 | members joined by ',' become rows joined by CRLF |
| Export.BracesDropped | imgurgeeks-extention/src/imgurgeeks_stats.js:2201 | the enclosing braces add nothing to the export |
| Export.ExportOfStoredViews | imgurgeeks-extention/src/imgurgeeks_stats.js:2199-2202 | the export of stored counts is the header followed by one row per image, in stored order |
| Fetch.Rounds | imgurgeeks-extention/src/imgurgeeks_stats.js:2263 | one round when merging, ten otherwise |
| Fetch.DelayOf | imgurgeeks-extention/src/imgurgeeks_stats.js:2266-2307 | the pause stays between 500 ms and 2000 ms |
| Fetch.DelaySchedule | imgurgeeks-extention/src/imgurgeeks_stats.js:2266-2307 | 500 ms in round 0, 1000 ms in round 1, 2000 ms from then on |
| Fetch.StepsIsProduct | imgurgeeks-extention/src/imgurgeeks_stats.js:2273 | the steps before round `jj` number `jj * m`, the page index base |
| Fetch.RoundOfStep | imgurgeeks-extention/src/imgurgeeks_stats.js:2271-2273 | page `ii + jj * m` belongs to round `jj` |
| Fetch.FirstStop | imgurgeeks-extention/src/imgurgeeks_stats.js:2271-2298 | every step before the stop succeeded uncancelled; the stop, if before the limit, failed or was cancelled |
| Fetch.IndicesConsecutive | imgurgeeks-extention/src/imgurgeeks_stats.js:2271-2274 | the pages requested are 0, 1, ..., n-1 |
| Fetch.PacingOfRounds | imgurgeeks-extention/src/imgurgeeks_stats.js:2300-2307 | every page is followed by the pause of its round |
| Fetch.RunRound | imgurgeeks-extention/src/imgurgeeks_stats.js:2271-2298 | a round completes all its pages, or ends at the first failed page (data end) or cancelled page, with the pages and pauses so far |
| Fetch.OuterStep | imgurgeeks-extention/src/imgurgeeks_stats.js:2269-2309 | one round keeps the session's invariant or stops it at the first stopping step |
| Fetch.RunSteps | imgurgeeks-extention/src/imgurgeeks_stats.js:2263-2310 | pages 0 up to the first stop are requested (all when none); the session is cancelled iff that stop was a cancel; pauses and breathers match the rounds run |
| Fetch.RunSession | imgurgeeks-extention/src/imgurgeeks_stats.js:2239-2311 | a declined refresh or a missing user fetches nothing; otherwise the session runs as `RunSteps` and is saved iff not cancelled |
| TopN.TopNSize | imgurgeeks-extention/src/imgurgeeks_stats.js:619-621 | 50 shown entries, 100 when subscribed; used by `GetList` and `Rank.RankChanges` |
| TopN.Hashes | imgurgeeks-extention/src/imgurgeeks_stats.js:1258-1270 | the hashes of the list, in order |
| TopN.Dedup | imgurgeeks-extention/src/imgurgeeks_stats.js:1145-1156 | removing duplicates never lengthens the list |
| TopN.InsertPerm | imgurgeeks-extention/src/imgurgeeks_stats.js:1160-1161 | inserting adds exactly that entry |
| TopN.InsertSorted | imgurgeeks-extention/src/imgurgeeks_stats.js:1160-1161 | inserting into a list sorted by falling views keeps it sorted |
| TopN.SortDescSpec | imgurgeeks-extention/src/imgurgeeks_stats.js:1160-1161 | the sort is a permutation with non-increasing views |
| TopN.Take | imgurgeeks-extention/src/imgurgeeks_stats.js:1164 | `slice(0, n)`: the whole list when short, else exactly `n` entries |
| TopN.CompactList | imgurgeeks-extention/src/imgurgeeks_stats.js:1145-1164 | duplicates removed, sorted by views, cut to 300; stated by `CompactListSpec` |
| TopN.Compacted | imgurgeeks-extention/src/imgurgeeks_stats.js:1136-1168 | an empty list is untouched; otherwise the minimum becomes the last kept entry's views, and at most 300 are kept |
| TopN.CompactListNonEmpty | imgurgeeks-extention/src/imgurgeeks_stats.js:1164-1168 | compacting a non-empty list keeps at least one entry |
| TopN.DedupNoDup | imgurgeeks-extention/src/imgurgeeks_stats.js:1145-1156 | no hash is kept twice |
| TopN.DedupKeepsFirst | imgurgeeks-extention/src/imgurgeeks_stats.js:1145-1156 | the first entry of each hash is kept |
| TopN.DedupOnlyFirst | imgurgeeks-extention/src/imgurgeeks_stats.js:1145-1156 | only first entries are kept |
| TopN.DedupCovers | imgurgeeks-extention/src/imgurgeeks_stats.js:1145-1156 | every hash of the input survives |
| TopN.DedupKeptIsFirst | imgurgeeks-extention/src/imgurgeeks_stats.js:1145-1156 | the kept entry of a hash is its first occurrence |
| TopN.InsertNoDup | imgurgeeks-extention/src/imgurgeeks_stats.js:1160-1161 | inserting a new hash keeps hashes distinct |
| TopN.SortNoDup | imgurgeeks-extention/src/imgurgeeks_stats.js:1160-1161 | sorting keeps hashes distinct |
| TopN.CompactListSpec | imgurgeeks-extention/src/imgurgeeks_stats.js:1136-1168 | the compacted list holds 1 to 300 entries with distinct hashes and falling views; each is its hash's first occurrence; a first occurrence is dropped only when 300 entries with at least its views were kept |
| TopN.CompactKeepsOnlyDedup | imgurgeeks-extention/src/imgurgeeks_stats.js:1145-1164 | every kept entry survived duplicate removal |
| TopN.CompactDropsOnlyLowest | imgurgeeks-extention/src/imgurgeeks_stats.js:1160-1164 | a dropped first occurrence has no more views than the 300th kept entry |
| TopN.DuplicateKeepsFirstViews | imgurgeeks-extention/src/imgurgeeks_stats.js:1145-1161 | a later, higher count for the same hash is discarded in favour of the first |
| TopN.DedupFilter | imgurgeeks-extention/src/imgurgeeks_stats.js:1145-1156 | the filter loop computes `Dedup` |
| TopN.AddRow | imgurgeeks-extention/src/imgurgeeks_stats.js:1204-1232 | one row of `addHashes`: admitted entries appended, compaction past 600; stated by `AddRowAppendsAccepted` and `AddRowsBounded` |
| TopN.AddRows | imgurgeeks-extention/src/imgurgeeks_stats.js:1194-1235 | all rows of `addHashes` in order; stated by `AddRowsConcat` and `AddRowsBounded` |
| TopN.Admitted | imgurgeeks-extention/src/imgurgeeks_stats.js:1207-1224 | exactly the row's entries with views above the floor and at least the minimum are admitted |
| TopN.AddRowsConcat | imgurgeeks-extention/src/imgurgeeks_stats.js:1204-1232 | adding rows in two parts is adding them all |
| TopN.AddRowsBounded | imgurgeeks-extention/src/imgurgeeks_stats.js:1227-1231 | after each row the list holds at most 600 entries |
| TopN.AddRowAppendsAccepted | imgurgeeks-extention/src/imgurgeeks_stats.js:1205-1224 | below capacity, a row appends exactly its accepted entries and keeps the minimum |
| TopN.MinimumRejectsUnderCapacity | imgurgeeks-extention/src/imgurgeeks_stats.js:1220-1222 | after a compaction has raised the minimum, an entry below it is rejected although the list is far from full |
| TopN.TrackerSaved | imgurgeeks-extention/src/imgurgeeks_stats.js:1273-1299 | the store after a tracker saves: unchanged when it skips, else the compacted list and its date written; used by the loaders' save contracts |
| TopN.Top100Tracker.constructor | imgurgeeks-extention/src/imgurgeeks_stats.js:1106-1113 | a fresh tracker: no user, not initialised, primary, minimum 0, empty list |
| TopN.Top100Tracker.Init | imgurgeeks-extention/src/imgurgeeks_stats.js:1121-1134 | the user is chosen once; the list is the saved top list (empty when absent) |
| TopN.Top100Tracker.Compact | imgurgeeks-extention/src/imgurgeeks_stats.js:1136-1168 | the state becomes `Compacted` of the old state |
| TopN.Top100Tracker.AddHashes | imgurgeeks-extention/src/imgurgeeks_stats.js:1194-1235 | a non-primary tracker is unchanged; a primary one becomes `AddRows` of the old state |
| TopN.Top100Tracker.AppendAccepted | imgurgeeks-extention/src/imgurgeeks_stats.js:1205-1225 | the loop appends exactly the admitted entries and keeps the minimum |
| TopN.Top100Tracker.AddHash | imgurgeeks-extention/src/imgurgeeks_stats.js:1237-1239 | one entry added as a one-entry row |
| TopN.Top100Tracker.GetList | imgurgeeks-extention/src/imgurgeeks_stats.js:1245-1252 | nothing before `init`; otherwise the compacted list cut to 50 (100 when subscribed) |
| TopN.Top100Tracker.GetHashs | imgurgeeks-extention/src/imgurgeeks_stats.js:1258-1271 | nothing before `init` or when empty; otherwise the hashes of the compacted list |
| TopN.Top100Tracker.Save | imgurgeeks-extention/src/imgurgeeks_stats.js:1273-1299 | nothing before `init`, for a non-primary user without a subscription, or after a cancel; otherwise the compacted list and its date are written and nothing else |
| TopN.CompactListShape | imgurgeeks-extention/src/imgurgeeks_stats.js:1136-1168 | the compacted list has distinct hashes and falling views |
| TopN.CompactListFrom | imgurgeeks-extention/src/imgurgeeks_stats.js:1145-1164 | every kept hash came from the input |
| TopN.HashesOfCompacted | imgurgeeks-extention/src/imgurgeeks_stats.js:1258-1271 | the hashes handed to the image queue are distinct, at most 300, and all were tracked |
| Views.MapTotalRemove | imgurgeeks-extention/src/imgurgeeks_stats.js:1370-1375 | the total of the counts splits into one image's count plus the rest |
| Views.MapTotalUpdate | imgurgeeks-extention/src/imgurgeeks_stats.js:1370-1375 | replacing an image's count moves the total by the new count less the old one |
| Views.ViewSumLedger.constructor | imgurgeeks-extention/src/imgurgeeks_stats.js:677-678 | no user's total is loaded |
| Views.ViewSumLedger.Init | imgurgeeks-extention/src/imgurgeeks_stats.js:680-691 | the user's total is (re)loaded from the cache, and other users' totals are kept |
| Views.ViewSumLedger.Save | imgurgeeks-extention/src/imgurgeeks_stats.js:693-702 | a loaded, named user's total is written as formatted text; otherwise nothing is written |
| Views.ViewSumLedger.AddViews | imgurgeeks-extention/src/imgurgeeks_stats.js:708-715 | the user's total grows by the value; other totals are kept |
| Views.ViewSumLedger.SubViews | imgurgeeks-extention/src/imgurgeeks_stats.js:723-725 | the user's total shrinks by the value; other totals are kept |
| Views.ViewSumLedger.GetViewsDisplay | imgurgeeks-extention/src/imgurgeeks_stats.js:731-735 | the total is reloaded and shown formatted |
| Views.LedgerRoundTrip | imgurgeeks-extention/src/imgurgeeks_stats.js:685-700 | a saved total reads back unchanged |
| Views.ApplyEntry | imgurgeeks-extention/src/imgurgeeks_stats.js:1352-1382 | a zero count is ignored; a known image is updated iff its count changed; a new image is stored iff its count reaches the threshold of 50 |
| Views.ApplyAll | imgurgeeks-extention/src/imgurgeeks_stats.js:1344-1385 | no more updates are counted than entries were seen |
| Views.ApplyAllConcat | imgurgeeks-extention/src/imgurgeeks_stats.js:1344-1385 | applying entries in two parts is applying them all; the counts add up |
| Views.ApplyEntryTotal | imgurgeeks-extention/src/imgurgeeks_stats.js:1359-1382 | an applied entry moves the total of counts by its new count less its old one |
| Views.ApplyAllNoZero | imgurgeeks-extention/src/imgurgeeks_stats.js:1353-1382 | no stored count is ever zero |
| Views.ApplyEntryIdempotent | imgurgeeks-extention/src/imgurgeeks_stats.js:1353-1382 | applying the same entry twice changes nothing more and counts no second update |
| Views.ViewsSaved | imgurgeeks-extention/src/imgurgeeks_stats.js:1392-1411 | the store after the counts save: the counts, their date and a loaded user's total written; used by the loaders' save contracts |
| Views.ImgViews.constructor | imgurgeeks-extention/src/imgurgeeks_stats.js:1312-1317 | no user, not initialised, primary, no counts |
| Views.ImgViews.Init | imgurgeeks-extention/src/imgurgeeks_stats.js:1325-1338 | the user is chosen once; the counts are the saved ones (none when absent); the ledger loads the total of the name passed in |
| Views.ImgViews.AddHashes | imgurgeeks-extention/src/imgurgeeks_stats.js:1344-1385 | the counts become `ApplyAll` of the old counts, the counter is its update count, and the user's total moves exactly as the sum of the counts does |
| Views.ImgViews.AddRow | imgurgeeks-extention/src/imgurgeeks_stats.js:1351-1383 | one row's entries are applied in order and the total follows the counts |
| Views.ImgViews.AddOne | imgurgeeks-extention/src/imgurgeeks_stats.js:1352-1382 | one entry is applied as `ApplyEntry`; the total follows the counts; other totals are kept |
| Views.ImgViews.AddHash | imgurgeeks-extention/src/imgurgeeks_stats.js:1388-1390 | one entry added as a one-entry row |
| Views.ImgViews.Save | imgurgeeks-extention/src/imgurgeeks_stats.js:1392-1411 | unless cancelled, the counts, their date and the user's total are written; the counts are then dropped and the object needs `init` again |
| Posts.FindHash | imgurgeeks-extention/src/imgurgeeks_stats.js:2557-2560 | the first index holding the hash, or none iff absent |
| Posts.MergeOne | imgurgeeks-extention/src/imgurgeeks_stats.js:2555-2577 | one fetched record replaces the first saved record of its hash, or goes in front; stated by `MergeOneHashes`, `MergeOneUntouched` and `MergeOneFind` |
| Posts.MergeAll | imgurgeeks-extention/src/imgurgeeks_stats.js:2553-2580 | the fetched records merged in order; stated by `MergeAllShape`, `MergeKeepsUntouched`, `MergeFinalRecord` and `MergeNewReversed` |
| Posts.MergeOneHashes | imgurgeeks-extention/src/imgurgeeks_stats.js:2553-2577 | merging one record adds its hash, and grows the list iff the hash was new |
| Posts.MergeAllShape | imgurgeeks-extention/src/imgurgeeks_stats.js:2553-2577 | the merged hashes are the old ones and the new ones; the list grows by the number of new hashes |
| Posts.MergeOneUntouched | imgurgeeks-extention/src/imgurgeeks_stats.js:2555-2577 | a merge leaves the records of other hashes in place and in order |
| Posts.MergeKeepsUntouched | imgurgeeks-extention/src/imgurgeeks_stats.js:2553-2577 | saved records whose hash was not fetched keep their order |
| Posts.MergeOneFind | imgurgeeks-extention/src/imgurgeeks_stats.js:2555-2577 | after merging a record, its hash is first found at that record |
| Posts.MergeFinalRecord | imgurgeeks-extention/src/imgurgeeks_stats.js:2553-2577 | every fetched hash ends up holding its last fetched record |
| Posts.MergeNewReversed | imgurgeeks-extention/src/imgurgeeks_stats.js:2574-2576 | all-new records end up in front, in reverse fetch order |
| Posts.TwoNewRecordsReversed | imgurgeeks-extention/src/imgurgeeks_stats.js:2574-2576 | two new posts fetched as [a, b] are saved as [b, a] |
| Posts.MergeRecord | imgurgeeks-extention/src/imgurgeeks_stats.js:2555-2577 | the in-place splice or unshift computes `MergeOne` |
| Posts.MergeRecords | imgurgeeks-extention/src/imgurgeeks_stats.js:2553-2580 | the merge loop computes `MergeAll` |
| Posts.RecordsOfAt | imgurgeeks-extention/src/imgurgeeks_stats.js:2486-2490 | each row gives one flat record, in order |
| Posts.AlbumEntriesAt | imgurgeeks-extention/src/imgurgeeks_stats.js:2462-2471 | an album contributes one entry per image, in order |
| Posts.PageStep | imgurgeeks-extention/src/imgurgeeks_stats.js:2449-2497 | a page prefix plus one row is that row applied to the prefix's tracker, counts and records |
| Posts.PostLoader.constructor | imgurgeeks-extention/src/imgurgeeks_stats.js:2337-2344 | no records and a zero count |
| Posts.PostLoader.ProcessPage | imgurgeeks-extention/src/imgurgeeks_stats.js:2446-2501 | a page appends one record per row and counts its rows; a primary loader feeds every entry to the tracker and the counts; otherwise neither changes |
| Posts.PostLoader.ProcessRowAt | imgurgeeks-extention/src/imgurgeeks_stats.js:2449-2497 | the page loop's invariant is kept by one more row |
| Posts.PostLoader.ProcessRow | imgurgeeks-extention/src/imgurgeeks_stats.js:2449-2497 | one row appends its record; a primary loader feeds its entries to the tracker and the counts |
| Posts.PostLoader.AddRowViews | imgurgeeks-extention/src/imgurgeeks_stats.js:2452-2471 | every entry of the row, one at a time, goes to the tracker (when primary) and to the counts |
| Posts.PostLoader.AddEntryAt | imgurgeeks-extention/src/imgurgeeks_stats.js:2458-2468 | the row loop's invariant is kept by one more entry |
| Posts.PostLoader.FetchStep | imgurgeeks-extention/src/imgurgeeks_stats.js:2508-2525 | a step succeeds iff a non-empty page arrived; on success the page's records are appended and a primary loader feeds its entries to the tracker and the counts, keeping the user's total in step; on failure records, tracker, counts and totals are unchanged |
| Posts.PostLoader.SaveData | imgurgeeks-extention/src/imgurgeeks_stats.js:2532-2592 | nothing after a cancel or with no records; otherwise the new store is exactly: the counts, their date and the user's total written, then the compacted tracker list and its date (unless skipped), then the records (merged into the saved ones when merging) and their date; every other entry is kept; the tracker is compacted exactly when it saved; the loader's user, mode, records and the users' totals are kept |
| Posts.PostLoader.SaveCounts | imgurgeeks-extention/src/imgurgeeks_stats.js:2544 | the new store is exactly the old one with the counts, their date and the user's total written, then the compacted tracker list and its date unless the tracker skips saving; the saved records are untouched |
| Images.ImageLoader.constructor | imgurgeeks-extention/src/imgurgeeks_stats.js:2337-2344 | empty queue and zero counts |
| Images.ImageLoader.SeedQueue | imgurgeeks-extention/src/imgurgeeks_stats.js:2688-2700 | when merging with a non-empty tracker, the tracker is compacted and its hashes are queued in order; otherwise nothing changes |
| Images.ImageLoader.ProcessMeta | imgurgeeks-extention/src/imgurgeeks_stats.js:2760-2787 | the page's hashes are queued and the expected total is set |
| Images.ImageLoader.ProcessStats | imgurgeeks-extention/src/imgurgeeks_stats.js:2790-2798 | one reply goes to the tracker (when primary) and to the counts, and the running count grows by the updates |
| Images.ImageLoader.DrainQueue | imgurgeeks-extention/src/imgurgeeks_stats.js:2733-2753 | the queue is drained batch by batch until empty, cancelled or a failed reply; no batch is cut once the cancel flag is seen; failure means the last batch's reply failed; every reply received was applied in order |
| Images.ImageLoader.Round | imgurgeeks-extention/src/imgurgeeks_stats.js:2733-2748 | one batch is cut from the queue, and its reply applied iff it arrived |
| Images.ImageLoader.TakeBatch | imgurgeeks-extention/src/imgurgeeks_stats.js:2735-2736 | a batch is the queue's first 1 to 60 hashes, short only when it empties the queue |
| Images.ImageLoader.FeedReply | imgurgeeks-extention/src/imgurgeeks_stats.js:2741-2747 | a reply is applied to the tracker and the counts |
| Images.ImageLoader.FetchStep | imgurgeeks-extention/src/imgurgeeks_stats.js:2711-2758 | a failed page fetches nothing; otherwise the expected total is set from the page (or the refresh size when merging), the queue is cut into batches of 60 in order, each received reply is applied, and success leaves the queue empty unless cancelled; failure means a failed page, an empty queue or a failed reply for the last batch; no batch is cut after a cancel; the user's total stays in step with the counts |
| Images.ImageLoader.SaveData | imgurgeeks-extention/src/imgurgeeks_stats.js:2389-2398 | nothing after a cancel; otherwise the new store is exactly the old one with the counts, their date and the user's total written, then the compacted tracker list and its date unless the tracker skips saving; the counts are dropped |
| Images.CutStep | imgurgeeks-extention/src/imgurgeeks_stats.js:2733-2736 | cutting one more batch keeps the queue the concatenation of the batches and the rest |
| Rank.PriorIndex | imgurgeeks-extention/src/imgurgeeks_stats.js:1666-1673 | the prior position of a hash, -1 when absent; stated by `PriorIndexSpec` |
| Rank.PriorIndexSpec | imgurgeeks-extention/src/imgurgeeks_stats.js:1663-1672 | -1 iff the hash is absent from the prior list; otherwise its last position there |
| Rank.ChangeOfSpec | imgurgeeks-extention/src/imgurgeeks_stats.js:1688-1702 | new iff absent before; no change only at the same position; a move down or up names the earlier rank, below or above the shown one |
| Rank.ChangeOf | imgurgeeks-extention/src/imgurgeeks_stats.js:1688-1702 | the mark of one shown entry; stated by `ChangeOfSpec` |
| Rank.InvertPrior | imgurgeeks-extention/src/imgurgeeks_stats.js:1663-1672 | the lookup map holds exactly the prior hashes, each at its last position |
| Rank.RankChanges | imgurgeeks-extention/src/imgurgeeks_stats.js:1657-1720 | one mark per shown entry (at most 50, or 100 when subscribed), each its change against the prior list |
| Rank.ChangeAt | imgurgeeks-extention/src/imgurgeeks_stats.js:1688-1702 | the lookup through the map gives `ChangeOf` |
| Rank.SamePlaceNoChange | imgurgeeks-extention/src/imgurgeeks_stats.js:1693-1696 | an entry at the same position is marked unchanged |
| Rank.UnchangedRanking | imgurgeeks-extention/src/imgurgeeks_stats.js:1688-1702 | a list compared with itself shows no change anywhere |
| Rank.MovedFromTop | imgurgeeks-extention/src/imgurgeeks_stats.js:1697-1698 | the former first entry, shown lower, is marked as down from rank 1 |
| PostTimer.StripSpaces | imgurgeeks-extention/src/imgur_context_end.js:117 | no whitespace is left, and text without whitespace is unchanged |
| PostTimer.DigitSpan | imgurgeeks-extention/src/imgur_context_end.js:118 | the longest run of leading digits |
| PostTimer.LetterSpan | imgurgeeks-extention/src/imgur_context_end.js:118 | the longest run of leading letters |
| PostTimer.Groups | imgurgeeks-extention/src/imgur_context_end.js:118-122 | a match gives digits, letters, digits |
| PostTimer.ParseDelay | imgurgeeks-extention/src/imgur_context_end.js:117-140 | the delay in seconds, or none when rejected; stated by `HoursForm`, `MinutesForm`, `UnknownUnitRejected` and `SpacesIgnored` |
| PostTimer.SecondsOf | imgurgeeks-extention/src/imgur_context_end.js:134-140 | a zero delay is rejected; any other is a positive whole number of minutes in seconds |
| PostTimer.GroupsOfShape | imgurgeeks-extention/src/imgur_context_end.js:118-122 | digits, a unit, digits and trailing letters match with exactly those three groups |
| PostTimer.StripShape | imgurgeeks-extention/src/imgur_context_end.js:117 | text of digits and letters loses nothing to the space strip |
| PostTimer.UnitsDisjoint | imgurgeeks-extention/src/imgur_context_end.js:125-130 | no minute unit is an hour unit |
| PostTimer.ParsedShape | imgurgeeks-extention/src/imgur_context_end.js:117-122 | stripping then matching a well-formed delay gives its three groups |
| PostTimer.HoursForm | imgurgeeks-extention/src/imgur_context_end.js:117-140 | after an hour unit the delay is hours and minutes in seconds, rejected iff both are zero |
| PostTimer.MinutesForm | imgurgeeks-extention/src/imgur_context_end.js:117-140 | after a minute unit the delay is minutes in seconds and the second number is ignored, rejected iff zero |
| PostTimer.UnknownUnitRejected | imgurgeeks-extention/src/imgur_context_end.js:117-138 | an unknown unit is rejected whatever the numbers |
| PostTimer.SpacesIgnored | imgurgeeks-extention/src/imgur_context_end.js:117 | spaces anywhere in the answer do not change the delay |
| PostTimer.Pad2 | imgurgeeks-extention/src/imgur_context_end.js:185-186 | a count as digits, two of them below 100 |
| PostTimer.Render | imgurgeeks-extention/src/imgur_context_end.js:181-187 | the button title for the time left; stated by `RenderFields` |
| PostTimer.RenderFields | imgurgeeks-extention/src/imgur_context_end.js:181-187 | the title shows hours, minutes and seconds of the time left |
| PostTimer.Countdown.constructor | imgurgeeks-extention/src/imgur_context_end.js:73-76 | no timer, no delay, the plain button title |
| PostTimer.Countdown.Tick | imgurgeeks-extention/src/imgur_context_end.js:169-189 | at zero the timer stops and the post is published once; otherwise one second goes and the title shows the time left |
| PostTimer.Countdown.Click | imgurgeeks-extention/src/imgur_context_end.js:105-152 | a running timer is stopped; an empty or cancelled answer resets the title; a rejected delay leaves no timer; an accepted one ticks once and starts the timer |

## Left out

- The network (`imgurFetch`) is not modelled. Each fetched page or reply is a parameter, and `None` stands for a failed fetch.
- `getUsername` is not modelled. The logged-in user is the `currentUser` parameter.
- `sleep` is not modelled. Each pause is recorded as a value in `Session.pacing`. The progress-bar pauses and the 250 ms pause between image batches are not recorded.
- The DOM, progress bar, messages, alerts, prompts and `setInterval` are not modelled. The prompt's answer is a parameter of `Click`. Each tick is one call of `Tick`.
- Clicking the post button (`ReallyClickTheElement`) is not modelled. Each publish is counted in `Countdown.published`.
- JSON parsing and serialisation are not modelled, revivers included. A cache entry holds a typed value (`Blob`), and the empty text stands for an absent key.
- A malformed saved value is read as its default: an empty list or map, or a zero total.
- Number formatting (`Intl.NumberFormat`) is fixed to en-US grouping with ',' every three digits.
- Counts are unbounded integers. The loss of precision that `parseInt` and JavaScript numbers suffer above 2^53 is not modelled.
- The date and time are the `now` parameter. `dateDiffDisplay` and the delta of the date column are not modelled.
- Object keys are modelled as plain map keys. `hash in {}` in the source also matches names inherited from `Object.prototype`, such as "valueOf"; that is not modelled.
- The extension-mapping store (`ImgExtMappingClass`) is a stub in the source. The extensions it is handed are not stored; `Mime.MimeExt` models only the mapping itself.
- `Fetch.Round` is defined by repeated subtraction. That it equals `k / m` is not proved. The page index base `jj * m` is proved (`Fetch.StepsIsProduct`).
- The cancel button is a function of the step index, read when each step returns. No other concurrency is modelled: a session runs strictly in order.
- `response_json.data.length === 0` is never true on the objects that the image metadata reply (imgurgeeks_stats.js:2719) and the image-views reply hold, so that check never stops a fetch. In the model, only a failed fetch yields no reply.
- Export.JsonText: keys are written in the order given. `JSON.stringify` writes integer-like keys first, in ascending order, so an all-digit image hash would come earlier than the model says; the model leaves that ordering rule out.
- The second zero check of the delay parse cannot be reached after the first. It is not modelled separately.
- The catch in `stringToBigInt` cannot be reached. The model's function is total.
- Views.ViewSumLedger.AddViews: requires the user's total to be loaded. In the source, adding to a missing total throws a `TypeError`. The loaders never reach that state, because `init` loads the total first.
- Views.ViewSumLedger.SubViews: requires the user's total to be loaded, for the same reason.
- `ViewSumSinglton.init` tests `this._sums.keys(username)`, which is always truthy, and its branch is empty. The model therefore reloads the total on every `init`.
- The sort comparator's tie order is unspecified in JavaScript. The model sorts by insertion, and its contracts promise only non-increasing views and a permutation.
- TopN.Dedup: its own contract bounds only the length. Which entries are kept is stated by `DedupNoDup`, `DedupKeepsFirst` and `DedupOnlyFirst`.
- Rendering is not modelled: HTML rows, thumbnails and the formatted view numbers of the rank table.

## Findings

| source | as written | input that shows it | evidently intended | confidence | as-written member | corrected member |
|---|---|---|---|---|---|---|
| imgurgeeks-extention/src/imgurgeeks_stats.js:2892-2901 | the version marker is saved only after a reset, so a store that never had a marker never gets one | a store holding only a user's saved posts and no marker: after the check it still has no marker | the marker is written whenever it is not current, so a later version change finds and clears old data | high (not executed) | Cache.VersionMarkerMissingAfterFreshCheck | Cache.VersionCheckFixed |
| imgurgeeks-extention/src/imgurgeeks_stats.js:1571-1578 | both totals are read back with `stringToBigInt`, which drops the '-' of a negative total | a total of -10 against a prior -5 is shown as "+5" rather than "-5" | the delta is the signed difference of the totals | medium (not executed) | Summary.DeltaOfNegativeTotalsAsWritten | Summary.DeltaSignedOfTotals |
