// Backfilling media for stored posts (backfill_media.py): select the posts whose raw JSON
// names media but that have no post_media rows, then hand them, batch by batch, to the media
// extraction step and add up what it reports.

module BackfillMedia {
  import opened Common

  // ---------------------------------------------------------------------
  // get_posts_needing_media
  // ---------------------------------------------------------------------

  /** A row of the posts query: its id, its `raw_json` decoded (Err: not valid JSON), and
      `first_seen_at`. */
  datatype StoredPost = StoredPost(postId: string, rawJson: Result<Json>, firstSeenAt: Json)

  /** A post selected for the backfill. */
  datatype Candidate = Candidate(postId: string, rawData: map<string, Json>, firstSeenAt: Json)

  /** The decoded post is a dict whose `media` is a non-empty dict with a truthy `type`: the
      filter's condition, short of the post_media lookup. A falsy `media` is passed over; a
      truthy one that is not a dict raises and the post is skipped; either way it is not kept. */
  predicate HasMedia(raw: Result<Json>)
  {
    && raw.Ok? && raw.value.JObject?
    && var media := GetOr(raw.value.fields, "media", JObject(map[]));
       Truthy(media) && media.JObject? && Truthy(Get(media.fields, "type"))
  }

  /** Whether the post at position `i` of the query result is kept: media named, its post_media
      lookup answered (`lookupOk(i)`), and no post_media row for it (`withMedia`). */
  predicate Keep(p: StoredPost, i: nat, lookupOk: nat -> bool, withMedia: set<string>)
  {
    HasMedia(p.rawJson) && lookupOk(i) && p.postId !in withMedia
  }

  function CandidateOf(p: StoredPost): Candidate
    requires HasMedia(p.rawJson)
  {
    Candidate(p.postId, p.rawJson.value.fields, p.firstSeenAt)
  }

  /** The kept posts of `rows`, whose first element sits at position `from` of the query result. */
  function Needing(rows: seq<StoredPost>, from: nat, lookupOk: nat -> bool, withMedia: set<string>): seq<Candidate>
    decreases |rows|
  {
    if rows == [] then []
    else
      (if Keep(rows[0], from, lookupOk, withMedia) then [CandidateOf(rows[0])] else [])
      + Needing(rows[1..], from + 1, lookupOk, withMedia)
  }

  /** `get_posts_needing_media` over the rows the query returned. */
  method PostsNeedingMedia(rows: seq<StoredPost>, lookupOk: nat -> bool, withMedia: set<string>)
    returns (kept: seq<Candidate>)
    ensures kept == Needing(rows, 0, lookupOk, withMedia)
  {
    kept := [];
    var i := 0;
    while i < |rows|
      invariant 0 <= i <= |rows|
      invariant kept + Needing(rows[i..], i, lookupOk, withMedia) == Needing(rows, 0, lookupOk, withMedia)
    {
      NeedingStepAt(rows, i, lookupOk, withMedia);
      var p := rows[i];
      if HasMedia(p.rawJson) && lookupOk(i) && p.postId !in withMedia {
        kept := kept + [CandidateOf(p)];
      }
      i := i + 1;
    }
    assert rows[i..] == [];
  }

  lemma NeedingStepAt(rows: seq<StoredPost>, i: nat, lookupOk: nat -> bool, withMedia: set<string>)
    requires i < |rows|
    ensures Needing(rows[i..], i, lookupOk, withMedia)
      == (if Keep(rows[i], i, lookupOk, withMedia) then [CandidateOf(rows[i])] else [])
         + Needing(rows[i + 1..], i + 1, lookupOk, withMedia)
  {
    assert rows[i..][0] == rows[i] && rows[i..][1..] == rows[i + 1..];
  }

  /** Every kept post names media and has no post_media row. */
  lemma {:induction false} NeedingSound(rows: seq<StoredPost>, from: nat, lookupOk: nat -> bool, withMedia: set<string>)
    ensures forall c :: c in Needing(rows, from, lookupOk, withMedia) ==>
      c.postId !in withMedia && HasMedia(Ok(JObject(c.rawData)))
    decreases |rows|
  {
    if rows != [] {
      NeedingSound(rows[1..], from + 1, lookupOk, withMedia);
    }
  }

  /** Every post that names media, was looked up, and has no post_media row is kept. */
  lemma {:induction false} NeedingComplete(rows: seq<StoredPost>, from: nat, lookupOk: nat -> bool, withMedia: set<string>)
    ensures forall i :: 0 <= i < |rows| && Keep(rows[i], from + i, lookupOk, withMedia) ==>
      CandidateOf(rows[i]) in Needing(rows, from, lookupOk, withMedia)
    decreases |rows|
  {
    if rows != [] {
      NeedingComplete(rows[1..], from + 1, lookupOk, withMedia);
      forall i | 1 <= i < |rows| && Keep(rows[i], from + i, lookupOk, withMedia)
        ensures CandidateOf(rows[i]) in Needing(rows, from, lookupOk, withMedia)
      {
        assert rows[1..][i - 1] == rows[i];
      }
    }
  }

  /** No more posts are kept than were returned by the query. */
  lemma {:induction false} NeedingLength(rows: seq<StoredPost>, from: nat, lookupOk: nat -> bool, withMedia: set<string>)
    ensures |Needing(rows, from, lookupOk, withMedia)| <= |rows|
    decreases |rows|
  {
    if rows != [] {
      NeedingLength(rows[1..], from + 1, lookupOk, withMedia);
    }
  }

  // ---------------------------------------------------------------------
  // The dry run
  // ---------------------------------------------------------------------

  /** The media item count a dry run shows for one post: the length of `images` for type
      `images`, 1 for `image` or `video`, 0 otherwise. `len()` of a list, string or dict is its length; of null, a number or a
      boolean it raises. */
  function ItemCount(media: map<string, Json>): (r: Result<nat>)
    ensures GetOr(media, "type", JStr("unknown")) in {JStr("image"), JStr("video")} ==> r == Ok(1)
    ensures GetOr(media, "type", JStr("unknown")) !in {JStr("images"), JStr("image"), JStr("video")} ==> r == Ok(0)
    ensures GetOr(media, "type", JStr("unknown")) == JStr("images") && GetOr(media, "images", JArray([])).JArray? ==>
      r == Ok(|GetOr(media, "images", JArray([])).items|)
    ensures GetOr(media, "type", JStr("unknown")) == JStr("images") && GetOr(media, "images", JArray([])).JStr? ==>
      r == Ok(|GetOr(media, "images", JArray([])).s|)
    ensures GetOr(media, "type", JStr("unknown")) == JStr("images") && GetOr(media, "images", JArray([])).JObject? ==>
      r == Ok(|GetOr(media, "images", JArray([])).fields|)
    ensures r.Err? <==>
      (GetOr(media, "type", JStr("unknown")) == JStr("images")
       && (GetOr(media, "images", JArray([])).JNull? || GetOr(media, "images", JArray([])).JInt?
           || GetOr(media, "images", JArray([])).JBool?))
  {
    var mediaType := GetOr(media, "type", JStr("unknown"));
    if mediaType == JStr("images") then
      match GetOr(media, "images", JArray([]))
      case JArray(xs) => Ok(|xs|)
      case JStr(s) => Ok(|s|)
      case JObject(f) => Ok(|f|)
      case _ => Err("object has no len()")
    else if mediaType == JStr("image") || mediaType == JStr("video") then Ok(1)
    else Ok(0)
  }

  /** The counts shown for the first ten selected posts. */
  function DryRunCounts(posts: seq<Candidate>): Result<seq<nat>>
    decreases |posts|
  {
    if posts == [] then Ok([])
    else
      var media := GetOr(posts[0].rawData, "media", JObject(map[]));
      var c := if media.JObject? then ItemCount(media.fields) else Err("object has no get()");
      var rest := DryRunCounts(posts[1..]);
      if c.Err? then Err(c.error)
      else if rest.Err? then rest
      else Ok([c.value] + rest.value)
  }

  // ---------------------------------------------------------------------
  // backfill_media
  // ---------------------------------------------------------------------

  /** The count fields the extraction step returns for one post. */
  datatype MediaCounts = MediaCounts(mediaCount: int, mediaCached: int, mediaErrors: int)

  /** The outcome of extracting the media of the k-th selected post (Err: it raised). */
  type Extractor = nat -> Result<MediaCounts>

  datatype BackfillStats = BackfillStats(postsChecked: int, postsWithMedia: nat, mediaTotal: int,
                                         mediaCached: int, mediaErrors: int, postsProcessed: nat,
                                         postsFailed: nat)

  /** `posts_checked` is `limit or len(posts)`: the limit when one is given, not the number of
      posts actually examined. */
  function Initial(limit: Option<int>, selected: nat): (s: BackfillStats)
    ensures limit.Some? && limit.value != 0 ==> s.postsChecked == limit.value
    ensures limit.None? || limit.value == 0 ==> s.postsChecked == selected
    ensures s.postsWithMedia == selected && s.postsProcessed == 0 && s.postsFailed == 0
    ensures s.mediaTotal == 0 && s.mediaCached == 0 && s.mediaErrors == 0
  {
    BackfillStats(if limit.Some? && limit.value != 0 then limit.value else selected, selected, 0, 0, 0, 0, 0)
  }

  function Tick(s: BackfillStats, outcome: Result<MediaCounts>): BackfillStats
  {
    match outcome
    case Ok(m) =>
      s.(postsProcessed := s.postsProcessed + 1, mediaTotal := s.mediaTotal + m.mediaCount,
         mediaCached := s.mediaCached + m.mediaCached, mediaErrors := s.mediaErrors + m.mediaErrors)
    case Err(_) => s.(postsFailed := s.postsFailed + 1)
  }

  /** The posts `posts`, the first at position `k`, processed one after another. */
  function Process(s: BackfillStats, posts: seq<Candidate>, extract: Extractor, k: nat): BackfillStats
    decreases |posts|
  {
    if posts == [] then s else Process(Tick(s, extract(k)), posts[1..], extract, k + 1)
  }

  function Ids(posts: seq<Candidate>): seq<string>
  {
    seq(|posts|, i requires 0 <= i < |posts| => posts[i].postId)
  }

  /** The error the posts query raises when it is not answered; it reaches `main`'s handler. */
  const QueryError: string := "APIError: posts query failed"

  /** The whole run: the stats, and the post ids handed to the extraction step in order. The
      posts query is answered when `queryOk` holds, and then returns `rows`. */
  function Backfill(queryOk: bool, rows: seq<StoredPost>, lookupOk: nat -> bool, withMedia: set<string>,
                    extract: Extractor, dryRun: bool, limit: Option<int>, batchSize: int)
    : Result<(BackfillStats, seq<string>)>
  {
    var posts := Needing(rows, 0, lookupOk, withMedia);
    var s := Initial(limit, |posts|);
    if !queryOk then Err(QueryError)
    else if posts == [] then Ok((s, []))
    else if dryRun then
      var shown := DryRunCounts(posts[..if |posts| < 10 then |posts| else 10]);
      if shown.Err? then Err(shown.error) else Ok((s, []))
    else if batchSize == 0 then Err("range() arg 3 must not be zero")
    else if batchSize < 0 then Ok((s, []))
    else Ok((Process(s, posts, extract, 0), Ids(posts)))
  }

  /** `backfill_media`: select, then run the selected posts in batches of `batchSize`. */
  method RunBackfill(queryOk: bool, rows: seq<StoredPost>, lookupOk: nat -> bool, withMedia: set<string>,
                     extract: Extractor, dryRun: bool, limit: Option<int>, batchSize: int)
    returns (r: Result<(BackfillStats, seq<string>)>)
    ensures r == Backfill(queryOk, rows, lookupOk, withMedia, extract, dryRun, limit, batchSize)
    ensures !queryOk ==> r == Err(QueryError)
  {
    if !queryOk {
      return Err(QueryError);
    }
    var posts := PostsNeedingMedia(rows, lookupOk, withMedia);
    var s := Initial(limit, |posts|);
    if posts == [] {
      return Ok((s, []));
    }
    if dryRun {
      var shown := DryRunCounts(posts[..if |posts| < 10 then |posts| else 10]);
      if shown.Err? {
        return Err(shown.error);
      }
      return Ok((s, []));
    }
    if batchSize == 0 {
      return Err("range() arg 3 must not be zero");
    }
    if batchSize < 0 {
      return Ok((s, []));
    }
    var done, calls := ProcessBatches(s, posts, extract, batchSize);
    r := Ok((done, calls));
  }

  /** The batch loop of `backfill_media`: batches of `batchSize` posts, each post handed to the
      extraction step in turn. */
  method ProcessBatches(s0: BackfillStats, posts: seq<Candidate>, extract: Extractor, batchSize: int)
    returns (s: BackfillStats, calls: seq<string>)
    requires batchSize > 0
    ensures s == Process(s0, posts, extract, 0) && calls == Ids(posts)
  {
    var batches := Chunks(posts, batchSize);
    ChunksFlatten(posts, batchSize);
    s, calls := s0, [];
    var k := 0;
    var b := 0;
    while b < |batches|
      invariant 0 <= b <= |batches| && 0 <= k <= |posts|
      invariant Flatten(batches[b..]) == posts[k..]
      invariant Process(s, posts[k..], extract, k) == Process(s0, posts, extract, 0)
      invariant calls == Ids(posts[..k])
    {
      FlattenCons(batches, b);
      s, calls, k := ProcessBatch(s, calls, batches[b], Flatten(batches[b + 1..]), posts, extract, k, s0);
      b := b + 1;
    }
    assert posts[k..] == [] && posts[..k] == posts;
  }

  /** One batch of the loop: each post of `batch` handed to the extraction step in turn. */
  method ProcessBatch(s: BackfillStats, calls: seq<string>, batch: seq<Candidate>, rest: seq<Candidate>,
                      posts: seq<Candidate>, extract: Extractor, k: nat, ghost s0: BackfillStats)
    returns (s': BackfillStats, calls': seq<string>, k': nat)
    requires k <= |posts| && batch + rest == posts[k..]
    requires Process(s, posts[k..], extract, k) == Process(s0, posts, extract, 0)
    requires calls == Ids(posts[..k])
    ensures k' <= |posts| && rest == posts[k'..]
    ensures Process(s', posts[k'..], extract, k') == Process(s0, posts, extract, 0)
    ensures calls' == Ids(posts[..k'])
  {
    s', calls', k' := s, calls, k;
    var j := 0;
    while j < |batch|
      invariant 0 <= j <= |batch| && k' <= |posts|
      invariant batch[j..] + rest == posts[k'..]
      invariant Process(s', posts[k'..], extract, k') == Process(s0, posts, extract, 0)
      invariant calls' == Ids(posts[..k'])
    {
      SuffixStep(batch[j..], rest, posts, k');
      assert batch[j..][1..] == batch[j + 1..];
      ProcessStep(s', posts, extract, k');
      IdsStep(posts, k');
      calls' := calls' + [batch[j].postId];
      s' := Tick(s', extract(k'));
      k' := k' + 1;
      j := j + 1;
    }
    assert batch[j..] == [];
  }

  lemma ProcessStep(s: BackfillStats, posts: seq<Candidate>, extract: Extractor, k: nat)
    requires k < |posts|
    ensures Process(s, posts[k..], extract, k) == Process(Tick(s, extract(k)), posts[k + 1..], extract, k + 1)
  {
    assert posts[k..][1..] == posts[k + 1..];
  }

  lemma IdsStep(posts: seq<Candidate>, k: nat)
    requires k < |posts|
    ensures Ids(posts[..k + 1]) == Ids(posts[..k]) + [posts[k].postId]
  {
  }

  // ---------------------------------------------------------------------
  // Properties of a run
  // ---------------------------------------------------------------------

  /** The sums over the posts from position `k` of what their extraction returned. */
  function Processed(posts: seq<Candidate>, extract: Extractor, k: nat): (n: nat)
    decreases |posts|
  {
    if posts == [] then 0 else (if extract(k).Ok? then 1 else 0) + Processed(posts[1..], extract, k + 1)
  }

  function SumOf(posts: seq<Candidate>, extract: Extractor, k: nat, field: MediaCounts -> int): int
    decreases |posts|
  {
    if posts == [] then 0
    else (if extract(k).Ok? then field(extract(k).value) else 0) + SumOf(posts[1..], extract, k + 1, field)
  }

  lemma {:induction false} ProcessSums(s: BackfillStats, posts: seq<Candidate>, extract: Extractor, k: nat)
    ensures var t := Process(s, posts, extract, k);
      && t.postsProcessed + t.postsFailed == s.postsProcessed + s.postsFailed + |posts|
      && t.postsProcessed == s.postsProcessed + Processed(posts, extract, k)
      && t.mediaTotal == s.mediaTotal + SumOf(posts, extract, k, (m: MediaCounts) => m.mediaCount)
      && t.mediaCached == s.mediaCached + SumOf(posts, extract, k, (m: MediaCounts) => m.mediaCached)
      && t.mediaErrors == s.mediaErrors + SumOf(posts, extract, k, (m: MediaCounts) => m.mediaErrors)
      && t.postsChecked == s.postsChecked && t.postsWithMedia == s.postsWithMedia
    decreases |posts|
  {
    if posts != [] {
      ProcessSums(Tick(s, extract(k)), posts[1..], extract, k + 1);
    }
  }

  /** A run whose posts query is answered and whose batch size is positive hands every selected post to the extraction step once,
      in order; each post is processed or failed, and the media counters are the sums of what
      the extraction step returned. */
  lemma BackfillAccounts(rows: seq<StoredPost>, lookupOk: nat -> bool, withMedia: set<string>, extract: Extractor,
                         limit: Option<int>, batchSize: int)
    requires batchSize > 0
    ensures var posts := Needing(rows, 0, lookupOk, withMedia);
      var r := Backfill(true, rows, lookupOk, withMedia, extract, false, limit, batchSize);
      && r.Ok?
      && r.value.1 == Ids(posts)
      && r.value.0.postsProcessed + r.value.0.postsFailed == |posts|
      && r.value.0.postsWithMedia == |posts|
      && r.value.0.postsProcessed == Processed(posts, extract, 0)
      && r.value.0.mediaTotal == SumOf(posts, extract, 0, (m: MediaCounts) => m.mediaCount)
      && r.value.0.mediaCached == SumOf(posts, extract, 0, (m: MediaCounts) => m.mediaCached)
      && r.value.0.mediaErrors == SumOf(posts, extract, 0, (m: MediaCounts) => m.mediaErrors)
  {
    var posts := Needing(rows, 0, lookupOk, withMedia);
    ProcessSums(Initial(limit, |posts|), posts, extract, 0);
  }

  /** A dry run hands nothing to the extraction step. */
  lemma DryRunExtractsNothing(queryOk: bool, rows: seq<StoredPost>, lookupOk: nat -> bool, withMedia: set<string>,
                              extract: Extractor, limit: Option<int>, batchSize: int)
    ensures var r := Backfill(queryOk, rows, lookupOk, withMedia, extract, true, limit, batchSize);
      r.Ok? ==> r.value.1 == [] && r.value.0.postsProcessed == 0 && r.value.0.postsFailed == 0
  {
  }

  /** The batches split the selected posts in order, there are ceil(n / batchSize) of them,
      and each holds at most `batchSize` posts. */
  lemma Batches(posts: seq<Candidate>, batchSize: nat)
    requires batchSize > 0
    ensures Flatten(Chunks(posts, batchSize)) == posts
    ensures |Chunks(posts, batchSize)| == (|posts| + batchSize - 1) / batchSize
    ensures forall c :: c in Chunks(posts, batchSize) ==> 0 < |c| <= batchSize
  {
    ChunksFlatten(posts, batchSize);
    ChunksCount(posts, batchSize);
    ChunksSizes(posts, batchSize);
  }
}
