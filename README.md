# social-tui, modelled in Dafny

social-tui is a set of terminal tools and batch scripts that track posts from LinkedIn,
YouTube and Substack. Post files and API answers are imported into a posts database, along
with per-download statistics snapshots (`data_downloads`) and one `download_runs` row per
script run. Media referenced by posts is fetched into a content-addressed cache,
`cache/media/{images,videos,documents}/<md5><ext>`. Profiles can be tagged, filtered and
searched. Old SQLite databases and dated download directories can be migrated into the
current schema. The terminal screens let a reader browse posts and videos, show images with
the kitty graphics protocol, and mark posts for follow-up.

This project models those parts of the system in Dafny and proves properties of the model.
It has one module per source file, plus `Common`. `Common` holds the shared pieces: an
option/result vocabulary, the parts of Python's string behaviour the scripts rely on
(`lower`, `strip`, `in`, `split`, `rstrip`, `int()`/`str()` on integers), a JSON value
type, batching by `range(0, len(xs), n)` slices, and a stable insertion sort.

- `MediaCache` covers `media_cache.py`: URL and MIME classification, cache paths,
  storing a download with reuse, corruption repair and de-duplication, batch downloads,
  lookups by digest and by legacy URL hash, and cache statistics.
- `ManageData` covers `manage_data.py`: URN extraction, import of post files with
  duplicate detection, and download runs.
- `BackfillMedia` covers `backfill_media.py`: selecting posts that need media, and the
  batch loop.
- `InteractivePosts` and `InteractiveYoutube` cover the two browsers: kitty chunk framing,
  date parsing and the 30-day window, marking, the legacy URL-keyed image cache, action
  letters and their sync to the queue, and the table filter.
- `ProfileUi` and `ProfileManager` cover the profile dialogs and the profile table: the
  username in a LinkedIn URL, the dialog state machines, tag filtering, search, CSV sync
  and the update guard.
- `TagManager` covers `tag_manager.py`: tag names, default tags, tagging, untagging and
  replacing a profile's tags.
- `MigrateDatabase`, `MigrateHistoricalRuns` and `MigrateData` cover the three migration
  scripts.
- `UpdateYoutubeStats`, `YoutubeFetcher` and `SubstackAnalyticsFetcher` cover the
  platform fetchers.
- `DiagnoseMissingMedia` covers the four-bucket classification of missing media files.

Remote work is modelled as a step that may fail: Supabase requests, the YouTube API,
yt-dlp, the Substack API and HTTP downloads. The exceptions are the tag tables of
`TagManager`, whose requests other than the insert of `tag_profile` are assumed to be
answered, and the queries of operations that are not modelled at all (see "Left out"). Each outcome is decided by an
oracle: a function from the running request number (or from the
request itself) to success or to an answer. The remote tables are plain values or class
fields. MD5, `uuid` and `generate_aws_id` are opaque deterministic functions or fresh
counters. The clock is a parameter.

Loops that update state in the source are methods with loop invariants. Each is proved
equal to a recursive specification function. Lemmas about those functions then state what
the scripts promise. Objects whose fields the source updates are classes with `modifies`
clauses: the cache, the tag tables, the profile store, the dialogs, the browser screens and
the two migrators.

Where the comments or documentation of a script and its code differ, the model follows the
code:
- `import_directory` counts a post whose exception ends its file in `processed` and once in
  `errors`, so `processed = new + duplicates + errors` need not hold exactly. The proved form
  is `new + duplicates <= processed <= new + duplicates + errors`
  (`ManageData.ImportStats`).
- In `batch_fetch_video_stats`, an item whose `int()` conversion raises or that has no `id`
  ends its batch. The items of that batch stored before it stay stored
  (`UpdateYoutubeStats.StoreItemsFacts`). A batch whose request fails contributes nothing
  (`UpdateYoutubeStats.FailedBatchStoresNothing`).
- In the Substack fetcher, an update whose response carries no rows would count as neither
  updated nor created. The model does not reach that case: an update that does not raise
  is counted as updated.
- `get_post_urn` with neither `full_urn` nor `urn` returns the falsy `full_urn` value itself,
  not always `None`.
- Date directories are sorted as strings. `strptime("%Y%m%d")` also accepts a space-padded
  day such as `"202411 5"`, and such a name sorts before the all-digit names of its month
  (`MigrateHistoricalRuns.SpacePaddedDayOutOfOrder`). This is proved as an observation about
  odd names, not claimed as a defect.

## Model

| member | source | states |
|---|---|---|
| Common.Lower | profile_manager.py:173-173 | lower-casing keeps the length and maps each character to its lower-case form |
| Common.LowerIdempotent | profile_manager.py:182-182 | lower-casing an already lower-cased name changes nothing |
| Common.StripIsInnerSlice | tag_manager.py:54-54 | `strip()` yields a slice of the text with no surrounding whitespace, empty exactly when the text is all whitespace |
| Common.StripIdempotent | tag_manager.py:157-157 | stripping a second time changes nothing |
| Common.ContainsIffOccurs | tag_manager.py:214-214 | `in` on strings holds exactly when the pattern occurs at some position |
| Common.AfterLast | substack_analytics_fetcher.py:83-83 | `split('/')[-1]` holds no separator, ends the text, and is the whole text or follows a separator |
| Common.RStripChar | substack_analytics_fetcher.py:83-83 | `rstrip('/')` is a prefix not ending in the character, and only that character was removed |
| Common.Or | substack_analytics_fetcher.py:124-124 | Python's `or` is truthy exactly when one side is, and is the left side when that is truthy |
| Common.IntTextRoundTrip | update_youtube_stats.py:120-122 | an integer written as decimal text is parsed back by `int()` to itself |
| Common.ChunksFlatten | update_youtube_stats.py:107-108 | the slices `ids[i:i + n]` taken in order concatenate back to the whole list |
| Common.ChunksCount | update_youtube_stats.py:228-229 | there are exactly `(len + n - 1) // n` slices |
| Common.ChunksSizes | update_youtube_stats.py:104-108 | every slice holds 1 to n items and all but the last hold exactly n |
| Common.SortByFacts | profile_manager.py:296-296 | sorting by a key is a permutation that is ordered by that key |
| Common.LexLeTotal | tag_manager.py:168-168 | any two names are comparable in string order |
| Common.LexLeTransitive | tag_manager.py:168-168 | string order is transitive |
| Common.LexLeAntisymmetric | tag_manager.py:168-168 | two names each ordered before the other are equal |
| BackfillMedia.PostsNeedingMedia | backfill_media.py:71-95 | the selection loop returns exactly the kept posts, in query order |
| BackfillMedia.NeedingSound | backfill_media.py:75-89 | every selected post names media with a truthy `type` and has no `post_media` row |
| BackfillMedia.NeedingComplete | backfill_media.py:73-92 | every post that names media, whose lookup succeeded and that has no `post_media` row is selected |
| BackfillMedia.NeedingLength | backfill_media.py:72-95 | no more posts are selected than the query returned |
| BackfillMedia.ItemCount | backfill_media.py:147-157 | the dry-run count: the length of `images` for type `images`, 1 for `image` and `video`, 0 otherwise; `len()` gives the length of a list, string or dict, and raises exactly for null, a number or a boolean |
| BackfillMedia.Initial | backfill_media.py:122-135 | `posts_checked` is the limit when one is given and non-zero, else the number selected; `posts_with_media` is the number selected; the rest start at 0 |
| BackfillMedia.RunBackfill | backfill_media.py:38-211 | the run equals the specification `Backfill`: a posts query that is not answered raises, then selection, early return without posts, dry run, then the batch loop |
| BackfillMedia.ProcessBatches | backfill_media.py:173-209 | the nested batch loop processes the posts in order, hands each post id to the extraction step once, and counts as `Process` does |
| BackfillMedia.ProcessSums | backfill_media.py:185-204 | every post is either processed or failed, and the media totals are the sums of what extraction returned |
| BackfillMedia.BackfillAccounts | backfill_media.py:133-211 | a real run hands every selected post to extraction once, in order; processed plus failed equals the number selected; the totals are the sums |
| BackfillMedia.DryRunExtractsNothing | backfill_media.py:141-164 | a dry run extracts nothing and processes no post |
| BackfillMedia.Batches | backfill_media.py:173-176 | the batches split the selected posts in order into ceil(n / batch_size) non-empty batches of at most batch_size posts |
| MediaCache.Lookup | media_cache.py:139-145 | a dict lookup on the tables: absent exactly when no entry has the key, otherwise the value of an entry with that key |
| MediaCache.TablesMapToMediaTypes | media_cache.py:33-56 | both tables map only to `image`, `video` or `document` |
| MediaCache.SplitScheme | media_cache.py:116-116 | the URL scheme ends at the first `:`, is lower-cased, and the rest follows it |
| MediaCache.StripParams | media_cache.py:116-116 | cutting `;params` keeps a prefix of the path |
| MediaCache.UrlPath | media_cache.py:116-117 | the parsed path holds no `?` and no `#` |
| MediaCache.FirstKeyIn | media_cache.py:120-122 | the first table key, in dict order, that occurs in the text; no earlier key occurs |
| MediaCache.ExtensionIn | media_cache.py:106-124 | `.bin` exactly when no known extension occurs in the path; otherwise the first one in dict order that does |
| MediaCache.ExtensionIsKnownOrBin | media_cache.py:120-124 | the extension is `.bin` or a key of the extension table |
| MediaCache.TypeOfExt | media_cache.py:143-148 | an extension's media type; `image` for one the table does not list |
| MediaCache.DetectMediaType | media_cache.py:127-148 | a known MIME type decides; otherwise the URL's extension decides, with `image` as the fallback; the result is always a media type |
| MediaCache.DirFor | media_cache.py:163-163 | `video` goes to `videos`, `document` to `documents`, anything else to `images` |
| MediaCache.CachePath | media_cache.py:151-164 | the file name is the 32-digit digest followed by the extension, in the type's directory |
| MediaCache.CachePathInjective | media_cache.py:151-164 | equal cache paths have the same directory, digest and extension |
| MediaCache.ContentTypeHint | media_cache.py:211-212 | the MIME hint is the Content-Type text before the first `;`, stripped; an empty hint becomes None |
| MediaCache.ResolveType | media_cache.py:282-283 | a non-empty caller type wins; otherwise the detected type |
| MediaCache.Store | media_cache.py:289-339 | a verified copy is reused unchanged; a corrupted one is deleted and the bytes written; only the cache path changes; a success names a file with the reported digest |
| MediaCache.PlanOfFits | media_cache.py:276-289 | the plan of a download is a cache path carrying the digest of the downloaded bytes |
| MediaCache.StoreIdempotent | media_cache.py:292-313 | storing the same bytes twice leaves the cache as the first store left it, and succeeds |
| MediaCache.StoreDedup | media_cache.py:286-313 | identical bytes with the same directory and extension share one path; the second put writes nothing |
| MediaCache.StoreDedupLimit | media_cache.py:286-289 | identical bytes with different extensions get different paths |
| MediaCache.StepKeepsVerified | media_cache.py:292-318 | a file whose content matches the digest in its name survives any later put |
| MediaCache.StepSound | media_cache.py:274-343 | after a successful put the reported file exists at the plan's path and holds bytes with the reported digest |
| MediaCache.Jobs | media_cache.py:367-370 | one job per URL, in order, each with a plan that fits its download |
| MediaCache.PutAll | media_cache.py:373-382 | no more results than URLs |
| MediaCache.PutAllCons | media_cache.py:373-380 | the first put's result, then the others run on the cache it left |
| MediaCache.PutAllResultsIntact | media_cache.py:346-382 | every reported file is still intact once the whole batch has run |
| MediaCache.PutAllKeepsSuccesses | media_cache.py:373-382 | one result per successful put, each for a URL of the batch; failures are dropped |
| MediaCache.EncodeChar | media_cache.py:415-415 | a character is 1 to 4 UTF-8 bytes, and ASCII is one byte with its own code |
| MediaCache.Utf8 | media_cache.py:415-415 | the encoding is at least as long as the text, and ASCII text encodes to its own codes |
| MediaCache.TotalSizeRemove | media_cache.py:447-447 | the size sum does not depend on which file is taken first |
| MediaCache.Cache.constructor | media_cache.py:27-30 | a cache starts empty |
| MediaCache.Cache.DownloadAndCache | media_cache.py:237-343 | the new cache and the result are those of the specification `Put` |
| MediaCache.Cache.StoreDownload | media_cache.py:289-343 | a failed download changes nothing and re-raises; otherwise the storage step |
| MediaCache.Cache.DownloadMultiple | media_cache.py:346-382 | all downloads run in turn; only successes are returned, each reported file intact |
| MediaCache.Cache.RunJobs | media_cache.py:373-382 | the job loop equals `PutAll` |
| MediaCache.Cache.CalculateMd5 | media_cache.py:63-90 | a missing file raises; otherwise the digest of the file's bytes |
| MediaCache.Cache.FindByMd5 | media_cache.py:385-398 | None exactly when no cached file matches `<digest>.*`; otherwise a match from the first directory, in dict order, that has one |
| MediaCache.Cache.FindByUrl | media_cache.py:401-422 | keyed by the MD5 of the URL's UTF-8 text: None exactly when no cached file matches `<url md5>.*`; otherwise a match from the first directory, in dict order, that has one; it never searches by content digest |
| MediaCache.Cache.Stats | media_cache.py:425-456 | one entry per media type with that directory's count and size, ignoring `.gitkeep`; the totals are the sums |
| MediaCache.Cache.DirSize | media_cache.py:442-452 | one directory's count and summed size |
| MediaCache.StatsOfCacheDirs | media_cache.py:441-456 | over the three directories, the totals are the sums of the per-type entries |
| ManageData.PostUrn | manage_data.py:21-29 | a truthy `full_urn` wins; otherwise a dict `urn` yields its activity or ugcPost URN and any other `urn` is taken as it is; the result is truthy exactly when one of these is |
| ManageData.CreateRun | manage_data.py:32-61 | succeeds exactly when the insert does; the new run has a fresh id, status `running`, the script name, platform and start time; nothing else changes |
| ManageData.CompleteRun | manage_data.py:64-82 | raises when no message is given and `stats` has no `errors` key (the `or` short-circuits on a message), or when the update fails; the run becomes `failed` exactly when a message is given or errors > 0, otherwise `completed`; posts fetched default to 0, posts updated is 0; other runs are untouched |
| ManageData.FindUrn | manage_data.py:133-138 | None exactly when no stored post has the URN; otherwise the index of a post that does |
| ManageData.StatsDict | manage_data.py:104-109 | the stats dictionary carries `processed`, `new` and `errors` with the tally's values |
| ManageData.PostsIn | manage_data.py:116-121 | a list is taken as it is, a dict becomes a one-element list, anything else skips the file |
| ManageData.ImportDirectory | manage_data.py:85-204 | the file and post loops compute `Import`; with a given run id no run is created |
| ManageData.ImportPostKeepsRuns | manage_data.py:123-198 | importing a post never touches the runs table |
| ManageData.RecordFacts | manage_data.py:177-198 | the data_downloads row refers to the resolved post and the run; post rows are unchanged |
| ManageData.InsertNewFacts | manage_data.py:140-175 | inserting a post with an unseen URN keeps URNs unique and adds exactly one row exactly when the insert succeeds |
| ManageData.ImportPostFacts | manage_data.py:123-198 | one post keeps the tables consistent; only a new post adds a posts row, appended after the old ones |
| ManageData.SightingOfStoredUrn | manage_data.py:133-139 | a post whose URN is stored is a duplicate: no new posts row, and its download row refers to the stored post id |
| ManageData.ImportPostsFacts | manage_data.py:123-198 | over a file's posts the tables stay consistent and the counters balance; the posts table grows by exactly the new posts |
| ManageData.ImportFilesFacts | manage_data.py:111-202 | over a directory the same holds; no URN is ever stored twice |
| ManageData.ImportStats | manage_data.py:85-204 | new + duplicates <= processed <= new + duplicates + errors, and the posts table grows by exactly the new posts |
| ManageData.CompletedIffNoErrors | manage_data.py:64-82 | after an import the run is `completed` exactly when no post lacked a URN, no insert failed and no file failed |
| InteractivePosts.UnframeFrame | interactive_posts.py:101-107 | a reader of graphics commands takes one `ESC _G control ; payload ESC \` command off the front of a stream |
| InteractivePosts.Commands | interactive_posts.py:101-107 | one (control, payload) pair per chunk |
| InteractivePosts.UnframeFrames | interactive_posts.py:101-107 | the written commands read back as exactly one command per chunk |
| InteractivePosts.CommandsAt | interactive_posts.py:102-107 | chunk k carries `a=T,f=100` when first, `m=0` when last, `m=1` otherwise, and the chunk as payload |
| InteractivePosts.KittyStreamRoundTrip | interactive_posts.py:93-107 | the stream reads back as one command per chunk; the chunks are non-empty, at most 4096 characters, and concatenate to the base64 text; the first chunk carries the action and format, the last `m=0`, the others `m=1` |
| InteractivePosts.ChunkIn | interactive_posts.py:96-97 | each chunk's characters come from the text it was cut from (so a chunk never holds ESC) |
| InteractivePosts.FormatDate | interactive_posts.py:347-347 | the zero-padded `%Y-%m-%d %H:%M:%S` text of a date is 19 characters long |
| InteractivePosts.ParseDateText | interactive_posts.py:344-349 | `strptime` with `%Y-%m-%d %H:%M:%S` gives only valid calendar dates and times: year 0, day 30 of February and second 60 raise (which texts it accepts is `ParsesIffLayout`) |
| InteractivePosts.ParseDate | interactive_posts.py:344-349 | text that parses gives its date; anything else, a non-string included, gives `datetime.min` |
| InteractivePosts.ParseRender | interactive_posts.py:344-349 | a valid date written in any layout `strptime` accepts (each field padded or not, the day zero-, space- or un-padded, any non-empty white-space gap) parses back to that date |
| InteractivePosts.ParseFormat | interactive_posts.py:344-349 | formatting a valid date and parsing it back gives the date |
| InteractivePosts.ParsedLayout | interactive_posts.py:344-349 | text that parses is its date written in one of those layouts |
| InteractivePosts.ParsesIffLayout | interactive_posts.py:344-349 | text parses to a valid date exactly when it is that date written in one of those layouts |
| InteractivePosts.RecentStep | interactive_posts.py:360-366 | one loop step: a post that raises stops the filter; a dated post is kept exactly when it is not older than the threshold |
| InteractivePosts.FilterRecent | interactive_posts.py:359-366 | the filter loop computes `Recent` |
| InteractivePosts.LoadAndDisplay | interactive_posts.py:351-370 | a file that fails to load raises; otherwise the recent posts, sorted newest first |
| InteractivePosts.ShownPosts | interactive_posts.py:359-370 | the shown posts are a permutation of the recent ones, in non-increasing date order, each at or after the threshold |
| InteractivePosts.RecentSound | interactive_posts.py:360-366 | every kept post comes from the input, carries its own date, and is at or after the threshold |
| InteractivePosts.RecentComplete | interactive_posts.py:360-366 | every post dated at or after the threshold is kept |
| InteractivePosts.LoadPostsSkips | interactive_posts.py:331-342 | loading succeeds only when every file does; the result holds the items of the list files only |
| InteractivePosts.RowIndex | interactive_posts.py:374-385 | the row map sends row i to post i, for exactly the shown rows |
| InteractivePosts.PostsScreen.constructor | interactive_posts.py:306-312 | one row per shown post, row i showing post i, nothing marked, no cursor |
| InteractivePosts.PostsScreen.CursorPost | interactive_posts.py:398-408 | a post exactly when the cursor is on a row present in the row map, and then that row's post |
| InteractivePosts.PostsScreen.MarkPost | interactive_posts.py:396-415 | the post under the cursor flips in or out of the marked set; every other post, and the table, stay as they were |
| InteractivePosts.PostsScreen.Todos | interactive_posts.py:417-420 | the marked posts, one per marked index, in ascending index order |
| InteractivePosts.TodoOrder | interactive_posts.py:419-419 | `sorted` of the marked set lists each marked index once, strictly ascending |
| InteractiveYoutube.ImageExt | interactive_youtube.py:116-123 | `.png` when the lower-cased path holds it, else `.gif`, else `.webp`, each only when no earlier one occurs; `.jpg` when none does |
| InteractiveYoutube.CachedImageNameSplits | interactive_youtube.py:97-125 | the cache name is the MD5 of the URL's UTF-8 text followed by the extension; two URLs share a name exactly when both parts agree |
| InteractiveYoutube.ImageDataStores | interactive_youtube.py:150-185 | a local path never touches the cache; a web image that is returned is stored under its cache name; a failure stores nothing |
| InteractiveYoutube.ImageDataCaches | interactive_youtube.py:169-174 | once a web image is cached, a second request returns the same bytes from the cache without downloading |
| InteractiveYoutube.LocalBypassesCache | interactive_youtube.py:164-167 | a local path's bytes do not depend on the cache or the download, and exist exactly when the file does |
| InteractiveYoutube.MissStoresDownload | interactive_youtube.py:176-185 | on a cache miss the downloaded bytes are returned and written under the cache name |
| InteractiveYoutube.ImageCache.constructor | interactive_youtube.py:29-30 | the cache directory holds the given files |
| InteractiveYoutube.ImageCache.GetImageData | interactive_youtube.py:150-185 | the result and the new cache contents are those of the specification `ImageData` |
| InteractiveYoutube.InvertInverse | interactive_youtube.py:57-57 | inverting an injective map gives a map whose keys are the original values, each sent back to its key |
| InteractiveYoutube.ActionTypesInjective | interactive_youtube.py:49-56 | no two action keys share an action type |
| InteractiveYoutube.ReverseActionTypes | interactive_youtube.py:49-57 | the reverse map is the exact inverse of the action map: its keys are exactly the action types, and a round trip from either side is the identity |
| InteractiveYoutube.DeleteRows | interactive_youtube.py:88-88 | the delete removes exactly the rows with that post id and action type |
| InteractiveYoutube.InsertActionsRows | interactive_youtube.py:65-81 | after the additions a row is present exactly when it was before or is a new pending row for an added key with an action type whose insert succeeded |
| InteractiveYoutube.DeleteActionsRows | interactive_youtube.py:83-91 | after the removals a row is present exactly when it was before and is not a row of the post for a removed key whose delete succeeded |
| InteractiveYoutube.SortedTypes | interactive_youtube.py:66-86 | iterating the keys in sorted order reaches the same action types as the set |
| InteractiveYoutube.SyncActionsRows | interactive_youtube.py:60-94 | the whole sync, additions then removals, leaves exactly the described rows |
| InteractiveYoutube.SyncIgnoresUnknownKeys | interactive_youtube.py:67-68 | keys without an action type have no effect |
| InteractiveYoutube.Diff | interactive_youtube.py:1213-1221 | added and removed are disjoint, added is new, removed was present, the old set minus removed plus added is the new set, and both are empty exactly when nothing changed |
| InteractiveYoutube.FormatActionsFacts | interactive_youtube.py:1261-1265 | the marks column holds each action key once, in ascending order, and is empty exactly when there are none |
| InteractiveYoutube.VisibleExactly | interactive_youtube.py:1435-1460 | the shown posts are in ascending index order, and a post is shown exactly when the filter is empty or its lower-cased text and author hold the lower-cased filter |
| InteractiveYoutube.VisibleStep | interactive_youtube.py:1451-1458 | one step of the filter loop |
| InteractiveYoutube.VisibleAll | interactive_youtube.py:1442-1446 | with no filter every post is shown and nothing raises |
| InteractiveYoutube.MainScreen.constructor | interactive_youtube.py:876-887 | an empty table over the loaded posts and marks |
| InteractiveYoutube.MainScreen.ActionsOf | interactive_youtube.py:1214-1216 | a post's current actions, empty when it is not marked |
| InteractiveYoutube.MainScreen.UpdatePostMark | interactive_youtube.py:1208-1239 | the diff is synced (only when there is one and the post has an id); a non-empty action set marks the post with the time, an empty or missing one unmarks it; the row's cell shows the formatted actions |
| InteractiveYoutube.MainScreen.CursorPost | interactive_youtube.py:1243-1253 | the row and post under the cursor exactly when the cursor is on a mapped row |
| InteractiveYoutube.MainScreen.MarkPost | interactive_youtube.py:1213-1259 | a marked post is unmarked and its cell cleared; an unmarked one is marked with `s` and its cell shows `s`; either way the sync of the difference between the old and new actions is scheduled; no cursor post changes nothing; the filter text, status and next row key are kept |
| InteractiveYoutube.MainScreen.ApplyFilter | interactive_youtube.py:1435-1460 | the table is rebuilt with exactly the visible posts and the status bar shows the count of the total; a post that raises leaves a partial table and the old status |
| InteractiveYoutube.MainScreen.AddRow | interactive_youtube.py:1462-1472 | a row is appended for the post under a fresh key that maps to it |
| InteractiveYoutube.UnterminatedFrames | interactive_youtube.py:253-259 | what follows a command as written starts with ESC or is empty |
| InteractiveYoutube.UnframeUnterminated | interactive_youtube.py:255-259 | a command that ends in a bare ESC cannot be read off the front of the stream |
| InteractiveYoutube.YoutubeKittyStreamUnreadable | interactive_youtube.py:245-259 | for any non-empty image the stream as written is not a readable command stream, while the terminated stream of the posts browser is |
| MigrateData.MigrationOrderTiers | archive/migrate_data.py:17-30 | nine tables, no table twice, each either independent or dependent, and every independent table before every dependent one |
| MigrateData.ConvertBooleanFields | archive/migrate_data.py:75-89 | the conversion loop computes `Converted` |
| MigrateData.ConvertFacts | archive/migrate_data.py:33-89 | the keys are kept; only a listed boolean field that is not null changes, and it becomes its Python truth value; a table without boolean fields is untouched; converting twice is converting once |
| MigrateData.ConvertSqliteFlags | archive/migrate_data.py:88-88 | SQLite's 0 becomes `False` and 1 becomes `True` |
| MigrateData.ConvertAll | archive/migrate_data.py:118-118 | one converted row per row |
| MigrateData.InsertEachFacts | archive/migrate_data.py:130-138 | row by row, each accepted row is appended to the table and each refused one counted as an error; the counts only grow |
| MigrateData.ImportBatchFacts | archive/migrate_data.py:115-138 | a batch lands whole when accepted, otherwise row by row, always after boolean conversion |
| MigrateData.ImportBatchesFacts | archive/migrate_data.py:114-138 | over all batches the imported rows are the converted data with the counted errors left out |
| MigrateData.ImportTableFacts | archive/migrate_data.py:91-140 | the whole import: the imported rows are the converted data minus the counted errors; empty data makes no request |
| MigrateData.AllBatchesAccepted | archive/migrate_data.py:114-124 | when every request succeeds the table gains all converted rows, with one request per batch of 100 and no errors |
| MigrateData.AcceptedBatchesCalls | archive/migrate_data.py:114-124 | accepted batches cost one request each and add no error |
| MigrateData.AllRequestsRefused | archive/migrate_data.py:114-138 | when every request fails nothing lands, every row is an error, and each batch costs one batch request plus one per row |
| MigrateData.RefusedBatchesCalls | archive/migrate_data.py:120-138 | refused batches cost one request per batch plus one per row and import nothing |
| MigrateData.RefusedEachCalls | archive/migrate_data.py:130-138 | refused rows cost one request each and are all errors |
| MigrateData.MigrateTableFacts | archive/migrate_data.py:162-206 | a table missing from SQLite raises; an empty one is skipped as verified without a request; otherwise exported is the row count, imported + errors equals it, and verified holds exactly when the remote count then equals the export |
| MigrateData.Names | archive/migrate_data.py:234-234 | one table name per stats entry |
| MigrateData.PutNew | archive/migrate_data.py:234-234 | recording stats for a table not yet recorded appends them |
| MigrateData.RunTablesFacts | archive/migrate_data.py:228-236 | the recorded tables are exactly the selected ones in migration order, each balanced, and the totals are the sums of imported rows and errors |
| MigrateData.RunMigrationFacts | archive/migrate_data.py:208-243 | the same from empty stats; no filter selects all nine tables in order |
| MigrateData.MainFacts | archive/migrate_data.py:282-337 | exit code 0 exactly for a dry run or a migration with no errors; a missing database exits before anything; a dry run ignores the table filter and lists every table's row count, and raises when a table is missing |
| MigrateData.DryRunCountsFacts | archive/migrate_data.py:318-320 | the dry run fails exactly when some table is missing; otherwise one count per table in order |
| MigrateData.DryRunAppend | archive/migrate_data.py:318-320 | the dry-run count of two table lists is the two counts joined, or the first failure |
| MigrateData.DataMigrator.constructor | archive/migrate_data.py:42-51 | a migrator with empty stats over the given source and remote |
| MigrateData.DataMigrator.InsertOneByOne | archive/migrate_data.py:130-138 | the row loop computes `InsertEach` |
| MigrateData.DataMigrator.ConvertBatch | archive/migrate_data.py:118-118 | the batch loop computes `ConvertAll` |
| MigrateData.DataMigrator.ImportTableToSupabase | archive/migrate_data.py:91-140 | the batch loop computes `ImportTable` |
| MigrateData.DataMigrator.VerifyTable | archive/migrate_data.py:142-160 | the remote count is compared with the expected count; a failed request raises |
| MigrateData.DataMigrator.MigrateOne | archive/migrate_data.py:162-206 | computes `MigrateTable` |
| MigrateData.DataMigrator.Run | archive/migrate_data.py:208-243 | the table loop computes `RunTables` over the migration order and stores the stats |
| MigrateData.MigrateDataMain | archive/migrate_data.py:282-337 | computes `Main` and returns its exit code |
| MigrateDatabase.PostFields | migrate_database.py:283-293 | no JSON or JSON that does not decode leaves `post_type` and `url` null; decoded JSON that is not an object raises; otherwise the values read from it |
| MigrateDatabase.PostTypeDefault | migrate_database.py:287-291 | `post_type` is null exactly when there is no usable JSON or it holds an explicit null; a decoded object without the key gives `regular` |
| MigrateDatabase.PostStep | migrate_database.py:275-314 | each source post draws exactly one id, whether or not its insert succeeds |
| MigrateDatabase.ProfileStep | migrate_database.py:346-371 | each source profile draws exactly one id (the mapping is recorded before the insert) |
| MigrateDatabase.TagStep | migrate_database.py:399-419 | each source tag draws exactly one id |
| MigrateDatabase.LinkStep | migrate_database.py:447-473 | each profile_tags row draws exactly one id, even when it cannot be mapped |
| MigrateDatabase.SoundValidates | migrate_database.py:478-535 | a sound destination passes validation |
| MigrateDatabase.PostStepSound | migrate_database.py:275-314 | migrating one post keeps the destination sound |
| MigrateDatabase.ProfileStepSound | migrate_database.py:346-371 | migrating one profile keeps the destination sound |
| MigrateDatabase.TagStepSound | migrate_database.py:399-419 | migrating one tag keeps the destination sound |
| MigrateDatabase.LinkStepSound | migrate_database.py:447-473 | migrating one profile_tags row keeps the destination sound (no orphaned reference) |
| MigrateDatabase.PostsSound | migrate_database.py:275-316 | the posts loop keeps the destination sound |
| MigrateDatabase.ProfilesSound | migrate_database.py:346-373 | the profiles loop keeps the destination sound |
| MigrateDatabase.TagsSound | migrate_database.py:399-421 | the tags loop keeps the destination sound |
| MigrateDatabase.LinksSound | migrate_database.py:447-475 | the profile_tags loop keeps the destination sound |
| MigrateDatabase.StepsSound | migrate_database.py:258-475 | each of the four steps, a missing table included, keeps the destination sound |
| MigrateDatabase.RunValidates | migrate_database.py:537-612 | the run fails exactly when the source has no posts table, and a completed run always validates |
| MigrateDatabase.PostsCount | migrate_database.py:273-314 | every source post is migrated or an error; the destination gains one row per migrated post; nothing but the posts part changes |
| MigrateDatabase.ProfilesCount | migrate_database.py:344-371 | every profile is migrated or an error; the destination gains one row per migrated profile |
| MigrateDatabase.TagsCount | migrate_database.py:397-419 | every tag is migrated or an error; the destination gains one row per migrated tag |
| MigrateDatabase.MappedCount | migrate_database.py:455-461 | no more mappable rows than rows |
| MigrateDatabase.LinksCount | migrate_database.py:445-473 | every row is migrated or an error; at most the mappable rows are migrated, every unmappable one is an error, and each new row refers to new profile and tag ids |
| MigrateDatabase.ProfilesMapped | migrate_database.py:351-354 | after the loop every source profile id is mapped, failed inserts included |
| MigrateDatabase.ProfileMappedTo | migrate_database.py:351-354 | a profile id is mapped to the id drawn at its last occurrence |
| MigrateDatabase.TagsMapped | migrate_database.py:404-407 | after the loop every source tag id is mapped |
| MigrateDatabase.RunCounts | migrate_database.py:273-475 | after the four steps each entity's migrated plus errors equals its total, which is the source row count, or zero for a missing table |
| MigrateDatabase.DatabaseMigration.constructor | migrate_database.py:36-57 | a migration starts with empty destination, counters and id maps |
| MigrateDatabase.DatabaseMigration.MigratePost | migrate_database.py:275-314 | one iteration of the posts loop, as `PostStep` |
| MigrateDatabase.DatabaseMigration.MigratePosts | migrate_database.py:258-317 | the posts loop, as `MigratePostsF` |
| MigrateDatabase.DatabaseMigration.MigrateProfile | migrate_database.py:346-371 | one iteration of the profiles loop, as `ProfileStep` |
| MigrateDatabase.DatabaseMigration.MigrateProfiles | migrate_database.py:319-374 | the profiles step, as `MigrateProfilesF` |
| MigrateDatabase.DatabaseMigration.MigrateTag | migrate_database.py:399-419 | one iteration of the tags loop, as `TagStep` |
| MigrateDatabase.DatabaseMigration.MigrateTags | migrate_database.py:376-422 | the tags step, as `MigrateTagsF` |
| MigrateDatabase.DatabaseMigration.MigrateProfileTag | migrate_database.py:447-473 | one iteration of the profile_tags loop, as `LinkStep` |
| MigrateDatabase.DatabaseMigration.MigrateProfileTags | migrate_database.py:424-476 | the profile_tags step, as `MigrateLinksF` |
| MigrateDatabase.DatabaseMigration.ValidateMigration | migrate_database.py:478-535 | the validation result, which is true whenever the destination is sound |
| MigrateDatabase.DatabaseMigration.Run | migrate_database.py:537-612 | a source without a posts table fails; otherwise the run completes and, from a sound state, validates; from a fresh migration it computes `RunF` |
| MigrateHistoricalRuns.DaysIn | migrate_historical_runs.py:52-52 | every month has 28 to 31 days |
| Common.Pad | migrate_historical_runs.py:58-58 | a number written as digits with exactly the width asked |
| MigrateHistoricalRuns.DayField | migrate_historical_runs.py:52-52 | a day field that `strptime` accepts is a day number from 1 to 31 |
| MigrateHistoricalRuns.ParseDateName | migrate_historical_runs.py:45-55 | an eight-character name parsed as `%Y%m%d` gives a valid calendar date |
| MigrateHistoricalRuns.DateName | migrate_historical_runs.py:49-49 | the `YYYYMMDD` name of a date is eight digits |
| Common.PadValue | migrate_historical_runs.py:58-58 | reading back a padded number gives the number |
| Common.PadOfValue | migrate_historical_runs.py:58-58 | a digit string is the padded form of its value |
| MigrateHistoricalRuns.DateNameRoundTrip | migrate_historical_runs.py:49-53 | parsing the name of a valid date gives the date |
| MigrateHistoricalRuns.NameOfParsedDate | migrate_historical_runs.py:49-53 | an all-digit name that parses is the name of its date |
| MigrateHistoricalRuns.DigitsValueBound | migrate_historical_runs.py:58-58 | a w-digit string's value is below 10^w |
| MigrateHistoricalRuns.DigitsValueAppend | migrate_historical_runs.py:58-58 | the value of joined digit strings |
| MigrateHistoricalRuns.LexLeDigits | migrate_historical_runs.py:58-58 | on digit strings of equal length, string order is numeric order |
| MigrateHistoricalRuns.DateKeyOrder | migrate_historical_runs.py:40-58 | the numeric `YYYYMMDD` key orders dates chronologically |
| MigrateHistoricalRuns.NameValue | migrate_historical_runs.py:49-58 | an all-digit date name's value is its date's key |
| MigrateHistoricalRuns.NamesChronological | migrate_historical_runs.py:40-58 | sorting all-digit date names as strings sorts them oldest first |
| MigrateHistoricalRuns.SpacePaddedDayOutOfOrder | migrate_historical_runs.py:52-58 | `202411 5` passes the date check as 5 November 2024 yet sorts before `20241101`: the string sort is chronological only for all-digit names |
| MigrateHistoricalRuns.Candidates | migrate_historical_runs.py:44-55 | no more candidates than directory entries |
| MigrateHistoricalRuns.CandidatesMembers | migrate_historical_runs.py:44-55 | a candidate is exactly an accepted entry (a digit-initial directory with an eight-character name, a `linkedin` entry and a valid date) and its name parses |
| MigrateHistoricalRuns.FindDateDirectoriesFacts | migrate_historical_runs.py:35-59 | the result is a permutation of the accepted directories, sorted by name, and chronological among all-digit names |
| MigrateHistoricalRuns.SystemInfo | migrate_historical_runs.py:81-86 | the system info has the four keys, the script `run_apify.sh` and the backfill note naming the directory |
| MigrateHistoricalRuns.CreateHistoricalRun | migrate_historical_runs.py:62-103 | a fresh run id, unless it clashes with a stored one (which raises); the new run is appended with status `running`, started at noon on the directory's date; nothing else changes |
| MigrateHistoricalRuns.CompleteFacts | migrate_historical_runs.py:204-236 | only the run's row changes: completed at 13:00 on its date, status `completed` even with errors, and the three counts from the stats |
| MigrateHistoricalRuns.ImportHistoricalDirectory | migrate_historical_runs.py:106-201 | the file and post loops compute `ImportFiles` and its stats; a URN or `total_reactions` that `sqlite3` cannot bind (an array, an object, an int beyond 64 bits) raises out of the file and counts one error |
| MigrateHistoricalRuns.GrowsTrans | migrate_historical_runs.py:131-198 | the import's step invariant composes |
| MigrateHistoricalRuns.ImportPostGrows | migrate_historical_runs.py:142-194 | one post keeps the step invariant |
| MigrateHistoricalRuns.ImportPostsGrows | migrate_historical_runs.py:142-194 | a file's posts keep the step invariant |
| MigrateHistoricalRuns.ImportFilesGrows | migrate_historical_runs.py:131-198 | all files keep the step invariant |
| MigrateHistoricalRuns.GrowsFromZero | migrate_historical_runs.py:123-129 | from zero counts the counters balance and one download row is added per created download |
| MigrateHistoricalRuns.ImportFacts | migrate_historical_runs.py:106-201 | every processed post lacks a URN, is not stored, or exists; no post is ever new; posts and runs are untouched; the new download rows, one per created download, refer to stored posts, the run and the run's date |
| MigrateHistoricalRuns.RunDirectory | migrate_historical_runs.py:301-309 | one directory: create, import, complete, as `RunOne` |
| MigrateHistoricalRuns.RunDirectories | migrate_historical_runs.py:296-324 | the directory loop computes `RunAll` |
| MigrateHistoricalRuns.MigrateHistoricalRunsMain | migrate_historical_runs.py:239-337 | computes `Main` |
| MigrateHistoricalRuns.RunOneFacts | migrate_historical_runs.py:301-309 | one completed run is appended for the directory's date with the import's counts, no new posts and its download rows |
| MigrateHistoricalRuns.RunAllFacts | migrate_historical_runs.py:296-324 | every added run is completed, run ids stay unique, posts are untouched, and the totals are the sums over the added runs |
| MigrateHistoricalRuns.MainFacts | migrate_historical_runs.py:239-337 | a missing database, no directories, a dry run or an answer other than `y` changes nothing; otherwise runs are added, all completed, with totals that are their sums, and a finished run adds one per directory |
| ProfileManager.NamesOf | profile_manager.py:178-182 | raises exactly when some dict entry has a `name` that is not a string (`.lower()` fails); otherwise a name is collected exactly when some entry is a dict with a string `name` whose lower-cased form it is |
| ProfileManager.TagNames | profile_manager.py:177-182 | falsy `tags` give no names; a list gives its entries' names or raises as `NamesOf`; a truthy number or `True` raises (not iterable); a string or dict yields no dicts and gives no names |
| ProfileManager.GetProfilesByTags | profile_manager.py:155-194 | a view query that is not answered raises; otherwise the filtering loop computes `ByTags`, returning at the first profile whose tags raise |
| ProfileManager.ByTagsKept | profile_manager.py:165-192 | the filter raises exactly when tags were asked for and some profile's tags raise; otherwise a profile is returned exactly when it is in the view and either no tags were asked for, or (AND) every lower-cased asked tag is among its tag names, or (OR) one of them is |
| ProfileManager.KeepErrStops | profile_manager.py:175-182 | once a profile's tags raise, the filter has raised with that error, whatever rows follow |
| ProfileManager.KeepMembers | profile_manager.py:176-192 | the loop raises exactly when some profile's tags raise, and otherwise keeps a profile exactly when it matches |
| ProfileManager.ByTagsInOrder | profile_manager.py:169-194 | a result is the view's rows at strictly increasing positions |
| ProfileManager.KeepPositions | profile_manager.py:176-192 | the positions the kept rows come from, strictly increasing |
| ProfileManager.LastWith | profile_manager.py:291-293 | the row a dict keeps for an id carries that id; None exactly when no row does |
| ProfileManager.LastWithIsLast | profile_manager.py:291-293 | the row kept is the last with that id |
| ProfileManager.Collect | profile_manager.py:291-293 | the dict has each id once, in first-insertion order, mapped to a row with that id |
| ProfileManager.CollectIsLast | profile_manager.py:291-293 | the dict holds an id exactly when a row carries it, and then the last such row |
| ProfileManager.Values | profile_manager.py:296-296 | `values()` lists one row per id, in the order the ids were first inserted into the dict |
| ProfileManager.SearchProfiles | profile_manager.py:272-297 | either `ilike` query that is not answered raises; when both are answered the dict loop and sort compute `Search` of their rows |
| ProfileManager.SearchFacts | profile_manager.py:290-297 | the result is sorted by name, holds each profile id once, as the last row with that id, and covers every id of both result sets |
| ProfileManager.ValuesFacts | profile_manager.py:291-296 | the dict's values have distinct ids and cover every id of the rows |
| ProfileManager.NameLeTotal | profile_manager.py:296-296 | comparing names is a total preorder, so the sort is well defined |
| ProfileManager.InsertKeepsDistinct | profile_manager.py:296-296 | inserting into the sorted list keeps ids distinct and the elements |
| ProfileManager.SortKeepsDistinct | profile_manager.py:296-296 | sorting keeps ids distinct and the elements |
| ProfileManager.UpdateRows | profile_manager.py:76-76 | the rows with the id get the changes; the others are unchanged |
| ProfileManager.Update | profile_manager.py:60-77 | no fields: False and nothing changes; a new username another row holds raises (the unique constraint on `profiles.username`); otherwise True exactly when a row has the id, whose given fields and `updated_at` change while other rows stay |
| ProfileManager.UpdateKeepsKeys | profile_manager.py:60-77 | an accepted update keeps profile ids and usernames unique |
| ProfileManager.FindByUsername | profile_manager.py:91-101 | a row with that username, None exactly when there is none |
| ProfileManager.SyncRow | profile_manager.py:214-237 | a row without username or name is skipped with no request; otherwise a failed lookup or write raises with no row changed; an existing stripped username is updated in place; otherwise one profile is appended with a fresh id |
| ProfileManager.SyncCounts | profile_manager.py:205-238 | an import that finishes counts added + updated + skipped as the number of rows read, and skipped as the number of incomplete rows |
| ProfileManager.SyncFinishes | profile_manager.py:205-238 | with every request answered the import finishes |
| ProfileManager.SyncStops | profile_manager.py:214-237 | a raised request ends the import (no try/except): later rows change nothing and the rows before it stay applied |
| ProfileManager.SyncCovers | profile_manager.py:214-237 | after an import that finishes every complete row's stripped username has a profile |
| ProfileManager.SyncRowKeeps | profile_manager.py:220-237 | a username with a profile keeps one after any row, raising or not |
| ProfileManager.ProfileStore.constructor | profile_manager.py:15-17 | an empty profiles table |
| ProfileManager.ProfileStore.AddProfile | profile_manager.py:19-46 | one request: a failed request or a taken username raises and changes nothing; otherwise one row with a fresh id is appended and the id returned; the keys stay unique |
| ProfileManager.ProfileStore.GetProfileByUsername | profile_manager.py:91-101 | one request: a failure raises, else the first row with that username or None |
| ProfileManager.ProfileStore.UpdateProfile | profile_manager.py:60-77 | no fields sends nothing; otherwise a failed request raises unchanged, else the table and result are those of `Update`; the keys stay unique |
| ProfileManager.ProfileStore.SyncFromCsv | profile_manager.py:196-239 | a missing file gives zero counts and no change; otherwise the row loop computes `SyncAll`, a raised request ending it with the earlier rows applied |
| ProfileManager.ProfileStore.SyncOne | profile_manager.py:214-237 | one iteration, as `SyncRow` |
| ProfileUi.SearchUsername | profile_ui.py:71-73 | a match is a non-empty run of characters other than `/` and `?` that starts right after a case-insensitive `linkedin.com/in/` at or after the start and runs to the end or to such a character; None exactly when no occurrence is followed by one |
| ProfileUi.ExtractUsernameShape | profile_ui.py:56-76 | the result is the stripped input, or the non-empty segment the first matching occurrence captures |
| ProfileUi.UsernameRoundTrip | profile_ui.py:56-76 | the profile URL `https://www.linkedin.com/in/<name>/` of a valid name extracts to that name |
| ProfileUi.MarkerInUrl | profile_ui.py:68-71 | such a URL contains the marker at position 12, and a name character follows it |
| ProfileUi.NoEarlierMarker | profile_ui.py:71-71 | the marker does not occur earlier in such a URL |
| ProfileUi.NameRun | profile_ui.py:71-71 | the captured run of such a URL is exactly the name |
| ProfileUi.StripUrl | profile_ui.py:65-65 | stripping leaves such a URL unchanged |
| ProfileUi.SkipToMarker | profile_ui.py:71-71 | the search moves past positions where the marker does not occur |
| ProfileUi.AddProfile | profile_ui.py:96-116 | the modal returns data exactly when the stripped username and name are non-empty; then the stripped name and notes and the username extracted from the stripped field |
| ProfileUi.AddProfileUsername | profile_ui.py:103-112 | extracting from the stripped field is extracting from the raw field |
| ProfileUi.EditProfileModal.constructor | profile_ui.py:157-159 | the modal holds the profile's `is_active` |
| ProfileUi.EditProfileModal.ToggleActive | profile_ui.py:179-183 | `a` sets `is_active` to 0 when it was truthy and to 1 otherwise, flipping its truth |
| ProfileUi.EditProfileModal.Save | profile_ui.py:192-210 | saves exactly when the stripped name is non-empty, with stripped name and notes and the current `is_active` |
| ProfileUi.DigitSlot | profile_ui.py:287-288 | a key selects slot k-1 exactly when it is a digit 1 to 9 with k-1 below the list length |
| ProfileUi.Toggle | profile_ui.py:291-294 | toggling flips membership of the element and keeps all others |
| ProfileUi.ToggleTwice | profile_ui.py:291-294 | toggling twice restores the set |
| ProfileUi.TagProfileModal.constructor | profile_ui.py:253-259 | the selection starts as the ids of the profile's tags |
| ProfileUi.TagProfileModal.OnKey | profile_ui.py:284-300 | a digit key within range toggles that tag's id; any other key leaves the selection |
| ProfileUi.TagProfileModal.Refresh | profile_ui.py:304-310 | a new tag refreshes the list and keeps the selection |
| ProfileUi.TagProfileModal.Save | profile_ui.py:314-317 | `Save` returns the selected ids |
| ProfileUi.NextColor | profile_ui.py:388-396 | the colour index advances by one and wraps to 0 after the last colour, staying in range |
| ProfileUi.ColorCycle | profile_ui.py:392-392 | k presses move the index to (i + k) mod the number of colours |
| ProfileUi.TagNameOf | profile_ui.py:402-402 | a new tag's name is the stripped, lower-cased field |
| ProfileUi.CreateTagModal.constructor | profile_ui.py:362-365 | the colour index starts at 0 |
| ProfileUi.CreateTagModal.CycleColor | profile_ui.py:390-392 | `c` advances the colour index by `NextColor` |
| ProfileUi.CreateTagModal.Create | profile_ui.py:398-414 | a tag results exactly when the name is non-empty and the add succeeds, with the new id, the name and the selected colour |
| ProfileUi.ClampSelection | profile_ui.py:534-535 | an in-range selection is kept; an out-of-range one moves to the last item, or 0 when none remain |
| ProfileUi.ManageTagsModal.constructor | profile_ui.py:460-464 | the selection starts at 0 |
| ProfileUi.ManageTagsModal.OnKey | profile_ui.py:499-507 | a digit key within range selects that tag; other keys keep the selection |
| ProfileUi.ManageTagsModal.DeleteTag | profile_ui.py:518-536 | with a valid selection that tag is deleted, the list reloaded and the selection clamped; otherwise nothing happens |
| ProfileUi.FilterByTagModal.constructor | profile_ui.py:583-588 | the selection starts as the current filters, in OR mode |
| ProfileUi.FilterByTagModal.OnKey | profile_ui.py:620-635 | a digit key within range toggles that tag's name; other keys keep the selection |
| ProfileUi.FilterByTagModal.ToggleMatchMode | profile_ui.py:637-641 | `m` flips the match mode and keeps the selection |
| ProfileUi.FilterByTagModal.Dismiss | profile_ui.py:643-653 | Apply returns the selection and mode; Clear returns no tags in OR mode; Cancel returns nothing |
| TagManager.NormalizeIdempotent | tag_manager.py:54-54 | lower-casing and stripping a tag name a second time changes nothing, so a stored (already normalised) name is found by any case or whitespace variant of it |
| TagManager.FindByName | tag_manager.py:156-160 | the lookup by name yields a stored row with exactly that name, and yields nothing only when no row has it |
| TagManager.FindById | tag_manager.py:144-145 | the lookup by id yields a stored row with that id, and nothing only when no row has it |
| TagManager.Drop | tag_manager.py:228-229 | a delete filtered by profile and/or tag keeps exactly the links it does not select; it shrinks the table exactly when some link was selected |
| TagManager.Having | tag_manager.py:250-250 | the `in_('tag_id', ...)` query returns exactly the stored tags whose id is among the asked ids |
| TagManager.ProfileTagNames | tag_manager.py:262-263 | the names are those of `get_profile_tags`, position by position |
| TagManager.NameLeTotal | tag_manager.py:250-250 | ordering by name is a total preorder, so the name-ordered result is well defined |
| TagManager.ProfileTagsFacts | tag_manager.py:241-251 | a profile's tags are exactly the stored tags linked to it, in name order, and `[]` when the profile has no links |
| TagManager.NewLinks | tag_manager.py:277-285 | one new link per requested tag id, in order, each with its own fresh id, the profile and the timestamp |
| TagManager.SetTagsExact | tag_manager.py:272-287 | after replacing a profile's tags (when the batch insert succeeds) the profile's tag ids are exactly the requested ones and every other profile's links are untouched |
| TagManager.RenameFacts | tag_manager.py:95-101 | a rename touches only the row with that id; on success that row alone carries the new name and is found by it; otherwise the table is unchanged |
| TagManager.FindByNameRenamed | tag_manager.py:97-99 | after renaming an existing tag to a name no other tag holds, a lookup by that name finds the renamed tag |
| TagManager.TagProfileFacts | tag_manager.py:201-216 | tagging returns True exactly when the insert succeeds; an already linked pair or an error mentioning duplicate or unique gives False; any other error is re-raised |
| TagManager.DuplicateMentioned | tag_manager.py:214-214 | the unique-constraint error of an already linked pair mentions "duplicate", so it is turned into False |
| TagManager.TagManager.constructor | tag_manager.py:23-26 | construction keeps the existing tables and leaves aws, ai and startup present |
| TagManager.TagManager.AddTag | tag_manager.py:39-65 | the name is normalised; a name already stored fails with the unique-constraint error and changes nothing; otherwise exactly one row with a fresh id, the normalised name, the colour and the description is appended and its id returned |
| TagManager.TagManager.GetTagByName | tag_manager.py:147-160 | the lookup normalises the asked name and finds the row stored under it, or proves none exists |
| TagManager.TagManager.EnsureTag | tag_manager.py:33-37 | one default name: inserted with its default colour when missing, otherwise nothing changes; earlier lookups keep their answers |
| TagManager.TagManager.EnsureDefaultTags | tag_manager.py:28-37 | afterwards aws, ai and startup exist; every inserted row is a default with its `DEFAULT_COLORS` colour; when all three already exist nothing is inserted |
| TagManager.TagManager.GetOrCreateTag | tag_manager.py:289-308 | an existing normalised name is returned and nothing is inserted; otherwise exactly one new row is appended and returned |
| TagManager.TagManager.DeleteTag | tag_manager.py:67-79 | returns True exactly when a tag with that id existed; the tag is gone and its profile links are removed with it (cascade) |
| TagManager.TagManager.RenameTag | tag_manager.py:81-101 | the new name is normalised; the outcome is True when the id exists, False when it does not, and the unique-constraint error when another tag already holds the name |
| TagManager.TagManager.TagProfile | tag_manager.py:188-216 | a successful insert appends exactly one link; any failure leaves the links unchanged; the result is that of `TagProfileFacts` |
| TagManager.TagManager.UntagProfile | tag_manager.py:218-229 | returns True exactly when the profile had that tag; afterwards it does not |
| TagManager.TagManager.ClearProfileTags | tag_manager.py:310-316 | removes every link of the profile and nothing else |
| TagManager.TagManager.SetProfileTags | tag_manager.py:265-287 | delete-then-insert: the links become the profile's old links dropped plus the new batch; the call fails exactly when a non-empty batch violates a constraint, after the delete has already happened |
| TagManager.TablesSetTags | tag_manager.py:276-287 | inserting a constraint-respecting batch for a profile whose links were just deleted keeps the tables' invariants (distinct ids, existing tags, no duplicate pair) |
| TagManager.TablesDropTag | tag_manager.py:78-78 | deleting a tag and its links keeps the tables' invariants |
| TagManager.TablesRename | tag_manager.py:97-99 | renaming to a name not held by another tag keeps the tables' invariants |
| UpdateYoutubeStats.StatsDefaults | update_youtube_stats.py:116-123 | a missing `viewCount`, `likeCount` or `commentCount` is read as 0 |
| UpdateYoutubeStats.StatsRoundTrip | update_youtube_stats.py:116-123 | a statistics object holding a video's three counts is read back as exactly those counts |
| UpdateYoutubeStats.PutFacts | update_youtube_stats.py:118-123 | storing a video's stats keeps the dictionary's keys unique, keeps earlier keys and sets that key's value |
| UpdateYoutubeStats.BatchFetchVideoStats | update_youtube_stats.py:90-129 | the batch loop computes `BatchFetch`: the stats dictionary and the id batches it requested |
| UpdateYoutubeStats.StoreResponse | update_youtube_stats.py:116-123 | the loop over one response's items computes `StoreItems` |
| UpdateYoutubeStats.Requests | update_youtube_stats.py:100-108 | the requests are the id list cut in order into batches of 1 to 50 ids, ceil(n / 50) of them, and an empty list makes no request and returns `{}` |
| UpdateYoutubeStats.StoreItemsFacts | update_youtube_stats.py:116-123 | after a response every stored id either kept its earlier stats or was answered with exactly those stats, and every well-formed item answered is stored |
| UpdateYoutubeStats.FetchFacts | update_youtube_stats.py:107-129 | across all batches every stored id came from an answered batch with those stats, and every well-formed answered item is stored |
| UpdateYoutubeStats.StoreFetchKeeps | update_youtube_stats.py:107-127 | later batches never remove a stored id |
| UpdateYoutubeStats.FailedBatchStoresNothing | update_youtube_stats.py:110-127 | a batch whose request fails contributes nothing and the next batches still run |
| UpdateYoutubeStats.SnapshotOf | update_youtube_stats.py:146-152 | the snapshot row carries the post id, the stats, and the likes as `total_reactions` |
| UpdateYoutubeStats.VideoMap | update_youtube_stats.py:235-235 | every video's urn is a key, and each key maps to a video with that urn |
| UpdateYoutubeStats.VideoMapLast | update_youtube_stats.py:235-235 | when several videos share a urn the last one wins |
| UpdateYoutubeStats.Known | update_youtube_stats.py:239-242 | the number of fetched ids that are in the video map is at most the number of fetched ids |
| UpdateYoutubeStats.SnapFacts | update_youtube_stats.py:239-252 | the snapshot loop attempts exactly the fetched ids known to the map, only adds to `updated`, and records only ids it was given |
| UpdateYoutubeStats.Urns | update_youtube_stats.py:223-223 | the id list is the videos' urns in order |
| UpdateYoutubeStats.FetchValid | update_youtube_stats.py:105-129 | the fetched dictionary has unique keys, each with a value |
| UpdateYoutubeStats.UpdateAccounts | update_youtube_stats.py:198-260 | `total` is the number of videos; `api_calls` is ceil(n / 50) whatever fails; unknown ids are skipped and `updated + errors` counts the known ones; `channels_updated` is the authors of successful inserts; each snapshot holds its video's post id, the fetched stats and the likes as total reactions |
| UpdateYoutubeStats.UpdateProfileSyncTime | update_youtube_stats.py:161-195 | the per-username update loop computes `SyncProfiles` |
| UpdateYoutubeStats.SyncedCons | update_youtube_stats.py:176-188 | a profile row is stamped exactly when some username's update reaches it without failing |
| UpdateYoutubeStats.SyncCount | update_youtube_stats.py:175-191 | the count is at most the number of usernames and no row is added or lost |
| UpdateYoutubeStats.SyncRow | update_youtube_stats.py:179-182 | each row is stamped with the sync time exactly when one of the updates selects it, otherwise it is unchanged |
| UpdateYoutubeStats.SyncFacts | update_youtube_stats.py:171-191 | the whole sync: count at most the number of usernames, and each youtube profile whose username is listed and whose update succeeded gets `last_synced_at` and `updated_at` set, the rest unchanged |
| UpdateYoutubeStats.SyncEmpty | update_youtube_stats.py:171-172 | an empty username list returns 0 and changes nothing |
| UpdateYoutubeStats.UpdateVideoStatsRun | update_youtube_stats.py:198-260 | the run computes `UpdateVideoStats` and then syncs exactly the updated channels, each once |
| UpdateYoutubeStats.UrnsAndMap | update_youtube_stats.py:223-235 | the loop builds the urn list and the urn-to-video map |
| UpdateYoutubeStats.SnapLoop | update_youtube_stats.py:239-252 | the snapshot loop computes `Snap` |
| UpdateYoutubeStats.ListOf | update_youtube_stats.py:256-256 | `list(set)` has exactly the set's members, each once |
| YoutubeFetcher.SplitOn | youtube_fetcher.py:55-55 | `split('\n')` yields at least one part and no part contains the separator |
| YoutubeFetcher.SplitJoin | youtube_fetcher.py:55-55 | joining the parts with the separator gives back the text |
| YoutubeFetcher.ParseListing | youtube_fetcher.py:54-63 | the line loop computes `ListingIds` on the stripped output |
| YoutubeFetcher.ListedIdsAppend | youtube_fetcher.py:55-63 | listing two runs of lines is listing each and concatenating, unless one of them raises |
| YoutubeFetcher.ListedIdsOne | youtube_fetcher.py:56-63 | one line is skipped when empty, not JSON or not a `url` entry with a truthy `id`; kept as its id otherwise; a non-object JSON line raises |
| YoutubeFetcher.ListedIdsRaise | youtube_fetcher.py:58-63 | a line whose `.get` raises aborts the whole listing |
| YoutubeFetcher.ListedIdsFacts | youtube_fetcher.py:55-63 | the listing fails exactly when some line raises; otherwise it holds exactly the truthy ids of the kept lines, one per kept line (the order is `ListedIdsAppend`) |
| YoutubeFetcher.DetailsFacts | youtube_fetcher.py:89-99 | one detail command per id, in order, stopping at the first failure; on success one metadata object per id |
| YoutubeFetcher.FetchVideosFacts | youtube_fetcher.py:42-113 | the first command lists the videos tab; the fallback listing runs exactly when the first listing succeeded and found no id; no id at all gives `[]`; a non-empty result has one entry per id; only listed ids are fetched |
| YoutubeFetcher.FetchDetails | youtube_fetcher.py:89-99 | the detail loop computes `Details` |
| YoutubeFetcher.DetailsStop | youtube_fetcher.py:95-99 | once a detail command fails, later ids change nothing |
| YoutubeFetcher.FetchVideosForChannel | youtube_fetcher.py:31-113 | the whole fetch computes `FetchVideos` |
| YoutubeFetcher.RecordFields | youtube_fetcher.py:156-181 | the post record has `urn` = the id, `full_urn` = "youtube:video:" + id, platform youtube and the integer timestamp; the media record shares the post id and has media type video |
| YoutubeFetcher.InsertNewVideoSkips | youtube_fetcher.py:127-154 | no id gives False with no call; an existing urn or a failed lookup gives False with no insert; a video posted before 2025-11-26 00:00 UTC gives False with no insert; a timestamp outside years 1 to 9999 raises with no insert |
| YoutubeFetcher.InsertNewVideoFrame | youtube_fetcher.py:127-195 | at most one post and one media row are appended; True exactly when the media row went in; a post goes in only for a new, recent video with that urn |
| YoutubeFetcher.InsertNewVideoRecords | youtube_fetcher.py:156-191 | on True the new post has the id as urn, `youtube:video:` + id as full urn, platform youtube, a timestamp not before the cutoff, and the new media row points at it with type video |
| YoutubeFetcher.InsertNewVideoKeepsUrnsUnique | youtube_fetcher.py:131-136 | inserting keeps post urns unique |
| YoutubeFetcher.InsertNewVideoOnce | youtube_fetcher.py:131-136 | inserting the same video a second time inserts nothing and returns False |
| YoutubeFetcher.Filter | youtube_fetcher.py:24-26 | only active youtube profiles are kept |
| YoutubeFetcher.InsertVideosFacts | youtube_fetcher.py:232-234 | the per-channel loop only appends, keeps urns unique, and its count of True answers equals the media rows added |
| YoutubeFetcher.ProcessChannelsFacts | youtube_fetcher.py:220-242 | over all channels the tables only grow, urns stay unique, one count per channel, and the total is the sum of the per-channel counts and the number of media rows added |
| YoutubeFetcher.MainFacts | youtube_fetcher.py:196-245 | no client means nothing happens; otherwise `new_videos_total` is the sum of per-channel counts and equals the media rows added, one count per active youtube channel |
| YoutubeFetcher.InsertChannelVideos | youtube_fetcher.py:232-234 | the per-channel loop computes `InsertVideos` |
| YoutubeFetcher.InsertVideosStop | youtube_fetcher.py:232-234 | an exception raised by one video ends the loop: later videos change nothing |
| YoutubeFetcher.ChannelsStop | youtube_fetcher.py:220-242 | an exception raised in one channel ends the run: later channels change nothing |
| YoutubeFetcher.ChannelsStep | youtube_fetcher.py:220-242 | each channel adds its count to the running total |
| YoutubeFetcher.ProcessOneChannel | youtube_fetcher.py:221-242 | one channel's fetch then insert loop computes `ProcessChannel` |
| YoutubeFetcher.YoutubeFetcherMain | youtube_fetcher.py:196-245 | the main loop computes `Main` |
| SubstackAnalyticsFetcher.SlugFacts | substack_analytics_fetcher.py:81-83 | a truthy slug attribute is used as is; otherwise the slug is the last `/`-segment of the URL once trailing slashes are removed: it holds no `/`, ends the stripped URL, and starts it or follows a `/` |
| SubstackAnalyticsFetcher.UrnParts | substack_analytics_fetcher.py:85-85 | the URN starts with `substack:` + username + `:`, and a slug without a colon is exactly what follows its last colon |
| Common.AfterLastOfSuffix | substack_analytics_fetcher.py:83-83 | the text after the last separator of a prefix ending in it plus a separator-free tail is that tail |
| SubstackAnalyticsFetcher.ArticleFieldDefaults | substack_analytics_fetcher.py:93-126 | missing reactions or heart count gives 0 likes, a missing `comment_count` gives 0; without a title the text is the description (or the subtitle); with a title and description it is title + blank line + description |
| SubstackAnalyticsFetcher.UpdateRows | substack_analytics_fetcher.py:101-105 | the update by urn changes no row count |
| SubstackAnalyticsFetcher.ProcessArticleFrame | substack_analytics_fetcher.py:88-149 | one article never touches the run table or the profile list, and a failing article leaves the posts unchanged |
| SubstackAnalyticsFetcher.ProcessArticleUpdates | substack_analytics_fetcher.py:99-111 | an existing urn is updated whenever the metadata, the lookup and the update succeed, and an update happens only for an existing urn: rows with that urn get the likes, comments and `updated_at`, every other row is unchanged |
| SubstackAnalyticsFetcher.ProcessArticleCreates | substack_analytics_fetcher.py:113-146 | a new urn is inserted whenever the metadata, the lookup, the date parse and the insert succeed, and a creation happens only for a new urn and appends exactly one substack article row with the urn, url, author, likes, comments and text content |
| SubstackAnalyticsFetcher.SubstackProfiles | substack_analytics_fetcher.py:55-56 | only active profiles with platform `substack` are kept |
| SubstackAnalyticsFetcher.CountFacts | substack_analytics_fetcher.py:75-146 | each article adds one to `processed`, and adds one to the error formula exactly when it neither updated nor created |
| SubstackAnalyticsFetcher.ProcessArticlesFacts | substack_analytics_fetcher.py:74-149 | a newsletter's loop processes each article once, counters only grow, and `updated + created <= processed` is kept |
| SubstackAnalyticsFetcher.ProcessProfilesFacts | substack_analytics_fetcher.py:63-152 | over profiles the counters only grow and stay consistent; when every profile lacks a username or its newsletter fails nothing changes |
| SubstackAnalyticsFetcher.SubstackProfilesFacts | substack_analytics_fetcher.py:55-56 | a profile is selected exactly when it is active with platform `substack`, in order |
| SubstackAnalyticsFetcher.RunStatsFacts | substack_analytics_fetcher.py:157-164 | the final stats have `errors = processed - updated - created - skipped` with `skipped` (`duplicates`) always 0, `new` = created, and errors never negative |
| SubstackAnalyticsFetcher.BodyFacts | substack_analytics_fetcher.py:53-156 | the body keeps the run record and the profile list, its counters are consistent, and with no profiles or a failed profile query they are all 0 |
| SubstackAnalyticsFetcher.FetchAndUpdateFrame | substack_analytics_fetcher.py:33-47 | a failed run creation aborts with nothing changed; otherwise the run id is the one created |
| SubstackAnalyticsFetcher.FetchAndUpdateRun | substack_analytics_fetcher.py:44-165 | the run record ends with the script name, processed and new counts, and status failed exactly when the error formula is positive |
| SubstackAnalyticsFetcher.BodyThenFinish | substack_analytics_fetcher.py:53-165 | whatever the body did, the `finally` completes the run with its counters |
| SubstackAnalyticsFetcher.FetchAndUpdateCounts | substack_analytics_fetcher.py:49-165 | the reported counters are consistent, and all 0 when the profile query fails or finds no substack profile |
| SubstackAnalyticsFetcher.FinishFacts | substack_analytics_fetcher.py:157-165 | completion writes exactly the body's counters into the run record |
| SubstackAnalyticsFetcher.ProcessNewsletter | substack_analytics_fetcher.py:74-149 | the article loop computes `ProcessArticles` |
| SubstackAnalyticsFetcher.FetchAndUpdateSubstackAnalytics | substack_analytics_fetcher.py:33-171 | the whole run computes `FetchAndUpdate` |
| DiagnoseMissingMedia.BaseName | scripts/s3_upload/diagnose_missing_media.py:115-115 | the name of a path holds no `/` and is never `.`: empty and `.` components are dropped, and nothing left gives "" |
| DiagnoseMissingMedia.BaseNameOfJoin | scripts/s3_upload/diagnose_missing_media.py:115-115 | the name of a file joined onto a directory is that file name |
| DiagnoseMissingMedia.BaseNameSlash | scripts/s3_upload/diagnose_missing_media.py:115-115 | a trailing `/` does not change the name |
| DiagnoseMissingMedia.BaseNameDot | scripts/s3_upload/diagnose_missing_media.py:115-115 | a trailing `/.` does not change the name |
| DiagnoseMissingMedia.CheckFileExists | scripts/s3_upload/diagnose_missing_media.py:34-39 | an empty or missing path is False; a string path is True exactly when something exists there; any other value raises |
| DiagnoseMissingMedia.Glob | scripts/s3_upload/diagnose_missing_media.py:48-48 | the recursive glob yields exactly the walked paths below the directory whose file name is the asked name |
| DiagnoseMissingMedia.Files | scripts/s3_upload/diagnose_missing_media.py:49-50 | only regular files are kept |
| DiagnoseMissingMedia.SearchFinds | scripts/s3_upload/diagnose_missing_media.py:42-51 | a path is found exactly when it is a regular file with that name below one of the search directories that exists; missing directories are skipped |
| DiagnoseMissingMedia.SearchForFileByName | scripts/s3_upload/diagnose_missing_media.py:42-51 | the loop over directories computes `Search` |
| DiagnoseMissingMedia.DirsUnder | scripts/s3_upload/diagnose_missing_media.py:73-79 | four search directories, the last being the cache root itself |
| DiagnoseMissingMedia.FoundByTwo | scripts/s3_upload/diagnose_missing_media.py:45-51 | a file that two search directories reach is reported at least twice |
| DiagnoseMissingMedia.FoundBy | scripts/s3_upload/diagnose_missing_media.py:45-51 | a file reached by any search directory is reported |
| DiagnoseMissingMedia.FoundTwice | scripts/s3_upload/diagnose_missing_media.py:73-79 | a file in images, videos or documents is found both there and through the recursive search of the cache root, so `found_paths` holds it twice |
| DiagnoseMissingMedia.HitBelow | scripts/s3_upload/diagnose_missing_media.py:48-50 | a regular file below an existing directory is one of its hits for its own name |
| DiagnoseMissingMedia.ClassifyCases | scripts/s3_upload/diagnose_missing_media.py:88-144 | no `local_file_path` goes to `no_path_info`; a file at the path goes to `file_exists_at_path` without a search (the walk order does not matter); otherwise any hit goes to `file_found_elsewhere` with all found paths and none to `file_not_found`; a non-string path raises |
| DiagnoseMissingMedia.PutFacts | scripts/s3_upload/diagnose_missing_media.py:110-144 | appending a finding adds it to exactly its own bucket and leaves the others as they were |
| DiagnoseMissingMedia.DiagnoseFails | scripts/s3_upload/diagnose_missing_media.py:88-144 | the run raises exactly when some record's classification raises |
| DiagnoseMissingMedia.DiagnoseCounts | scripts/s3_upload/diagnose_missing_media.py:81-144 | the four buckets together hold one finding per record, each in the bucket of its kind |
| DiagnoseMissingMedia.DiagnosePlaces | scripts/s3_upload/diagnose_missing_media.py:88-144 | every record's finding lands in its bucket |
| DiagnoseMissingMedia.BucketGrows | scripts/s3_upload/diagnose_missing_media.py:81-144 | appending never removes an earlier finding |
| DiagnoseMissingMedia.Missing | scripts/s3_upload/diagnose_missing_media.py:63-67 | the query returns exactly the `post_media` rows whose id is one of the listed missing ids |
| DiagnoseMissingMedia.DiagnoseMissing | scripts/s3_upload/diagnose_missing_media.py:54-146 | a failed query raises; otherwise the classification loop computes `Diagnose` of the queried records |
| DiagnoseMissingMedia.DiagnoseStops | scripts/s3_upload/diagnose_missing_media.py:88-144 | once a record raises, later records change nothing |

## Left out

- Network and remote I/O: HTTP downloads (`urlopen`), yt-dlp subprocesses, the YouTube Data API client, the Substack API and the Supabase requests are not executed. Each is a step that succeeds or raises, decided by an oracle, except in `TagManager.TagManager` (next line).
- TagManager.TagManager: only the insert of `tag_profile` can fail for any reason. Its other requests (the lookups, the default-tag inserts, `add_tag`, `rename_tag`, the insert of `set_profile_tags` and the deletes) are assumed to be answered; they fail only on the constraints the model states. A request failure in the middle of `set_profile_tags`, `ensure_default_tags` or `get_or_create_tag`, and the partial state it leaves, are not modelled.
- supabase_client.py is not part of this model. The client it returns is the modelled table state. A failure to construct the client is modelled only where the script tests for it (`youtube_fetcher.py` main).
- db_utils.py is not part of this model. `generate_aws_id` and `uuid4` are fresh counters or oracles giving the n-th id. Their text format is not modelled.
- The substack_api library is not part of this model. `Newsletter.get_posts` and `Post.get_metadata` are oracles.
- `extract_and_store_media` is not part of this model: its body is not in `manage_data.py`. Only the counts it returns are inputs to `BackfillMedia`.
- Concurrency: the thread pool of `download_multiple_media` runs its jobs one after another, in URL order. The unlocked check-then-write race on the cache directory is out of scope. websocket_server.py is not modelled.
- MD5 internals: the digest is an opaque deterministic function of the bytes, yielding 32 characters (`HexDigest` fixes only the length, not the hex alphabet).
- The chunked reading loop of `calculate_md5` is modelled by its result, the digest of the whole file.
- `get_image_dimensions` (PIL) is an optional opaque value. `format_size` is not modelled, because it divides floats by 1024.
- Random sleeps (`backfill_media.py:206-209`) and the one-second sleep in the Substack fetcher are left out. They have no effect on the state.
- The clock: `datetime.now()` is a parameter, or an oracle per call.
- Timestamps: yt-dlp's float timestamps and sub-second parts are modelled as whole seconds.
- Date parsing: `dateutil` parsing of Substack `post_date` is an oracle.
- Printing, progress messages, summaries and timings are left out. This covers the `print_summary` of `archive/migrate_data.py` and the elapsed-time report.
- UI layer: Textual composition, CSS, key bindings beyond the modelled handlers, notifications, the clipboard and `open` subprocesses are left out. So are the icat probing and terminal writes in the display functions.
- SQL text and DDL are left out: `create_new_schema` and the schema scripts under `archive/`. The constraints that DDL declares are modelled as insert failures.
- update_data.py, fix_postmedia_ids.py, rename_bin_files.py, show_posts.py, test_kitty_image.py and test_icat.py are not modelled. They are orchestration, random-id repair, renames, display or manual terminal tests.
- Common.Lower: `str.lower()` and `re.IGNORECASE` are modelled for ASCII letters only. Unicode case mappings are not modelled. `str.strip()` uses Python's whitespace set.
- InteractivePosts.ParseDateText: `strptime`'s `\d` matches every Unicode decimal digit; the model accepts ASCII digits only.
- MigrateHistoricalRuns.ParseDateName: likewise, ASCII digits only where `strptime`'s `\d` matches every Unicode decimal digit.
- Common.ParseInt: Python's `int()` of a string also accepts `_` between digits and non-ASCII decimal digits. Those forms are not accepted here, nor by `UpdateYoutubeStats.IntOf`, which is built on it.
- JSON numbers: floats are not modelled, except the yt-dlp timestamps (as whole seconds). So `int(1.5)` truncating and `0.0` being falsy are not captured; a float where the source expects an int is modelled as a non-int value.
- TagManager.TagManager.constructor: it requires the stored tags and links to be consistent already (names normalised and distinct, links to existing tags). Tables the database holds in another state are not modelled.
- MediaCache.UrlPath: `urlsplit` strips leading and trailing C0 controls and spaces and removes tab, CR and LF before splitting. That cleaning is not modelled. `urlsplit` also raises `ValueError` when the network location has an unmatched `[` or `]` (`http://[x/a.jpg`); the model gives a path instead, so `ExtensionFromUrl` and `InteractiveYoutube.ImageExt` do not raise there.
- TagManager.ProfileTagsFacts: `.order('name')` is modelled as ordering by code points. The database collation may order names differently.
- ProfileUi.DigitSlot: a digit key is one of `1`-`9`. `str.isdigit` and `int()` also accept other Unicode decimal digits (`٣` selects slot 3), and `isdigit` accepts digits such as `²` for which `int()` raises. Those keys are not modelled: they select nothing here.
- ProfileUi.TagProfileModal.OnKey: built on `DigitSlot`, so non-ASCII digit keys are not modelled.
- ProfileUi.ManageTagsModal.OnKey: built on `DigitSlot`, so non-ASCII digit keys are not modelled.
- ProfileUi.FilterByTagModal.OnKey: built on `DigitSlot`, so non-ASCII digit keys are not modelled.
- DiagnoseMissingMedia.Glob: glob metacharacters in a file name are matched literally. Paths are not normalised. The filesystem has one walk order shared by every recursive glob. An empty name (the recorded path was `/` or `.`) finds no file here; `rglob` of an empty pattern is not modelled.
- YoutubeFetcher.RecordFields: `raw_json` is kept as the decoded JSON object rather than as its `json.dumps` text. The text form of a non-string title or description is a parameter.
- MigrateData.DataMigrator.VerifyTable: the fallback used when `result.count` is `None` is not modelled. With `count='exact'` the count is always present, so the count is the size of the remote table.
- ProfileManager: `delete_profile`, `get_profile_by_id`, `get_all_profiles`, `get_profiles_by_tag`, `export_to_csv` and `get_profile_count` are not modelled. They are single remote queries with no local logic.
- TagManager: `update_tag_color`, `update_tag_description`, `get_all_tags`, `get_tags_with_counts` and `get_profiles_by_tag` are not modelled. They are single remote updates or queries. `get_tag_by_id` is the lookup `TagManager.FindById`.
- UpdateYoutubeStats: `get_existing_youtube_videos`, `show_statistics` and `main` are not modelled. They hold query building, display and argument parsing. The videos they select are the input of `UpdateVideoStats`.
- SubstackAnalyticsFetcher.FetchAndUpdateSubstackAnalytics: a failure while constructing `ProfileManager()` is not modelled.
- InteractiveYoutube and InteractivePosts: screen layout, the detail views, clipboard copies and opening URLs are left out. So is `load_posts` of `interactive_youtube.py` (lines 910-1139) with its queries: the screen starts from the loaded videos and marks. The modelled parts are image data and caching, marking, the action map and its sync, and filtering.

## Findings

| source | as written | input that shows it | evidently intended | confidence | as-written member | corrected member |
|---|---|---|---|---|---|---|
| interactive_youtube.py:255-259 | each kitty graphics command ends with a bare ESC, without the backslash of the string terminator `ESC \` | any non-empty image: the first command's terminator is ESC followed by the next command's ESC, so no command can be read off the stream | every command ends with `ESC \`, as in the same code in `interactive_posts.py:101-107` | not executed | InteractiveYoutube.YoutubeKittyStreamUnreadable | InteractivePosts.KittyStreamRoundTrip |
