/**
 * Refreshing the statistics of stored YouTube videos (update_youtube_stats.py).
 *
 * The YouTube Data API is an oracle: its answer to the k-th `videos.list` request for a
 * batch of ids is a list of items or an error. Each snapshot insert into `data_downloads`
 * succeeds or fails according to another oracle, indexed by attempt, which also supplies the
 * generated download id and the clock reading. The `profiles` table is a sequence of rows.
 */
module UpdateYoutubeStats {
  import opened Common

  /** The API takes at most 50 ids per request. */
  const BatchSize: nat := 50

  // ---------------------------------------------------------------------
  // batch_fetch_video_stats
  // ---------------------------------------------------------------------

  datatype VideoStats = VideoStats(views: int, likes: int, comments: int)

  /** An item of a `videos.list` response: its `id` (None: the key is missing) and its
      `statistics` object (a missing one reads as `{}`). */
  datatype Item = Item(id: Option<string>, statistics: map<string, Json>)

  /** The answer to the k-th request, for the ids it named. */
  type Api = (nat, seq<string>) -> Result<seq<Item>>

  /** `int(x)` on a decoded JSON value; None: it raises. */
  function IntOf(j: Json): Option<int>
  {
    match j
    case JInt(i) => Some(i)
    case JBool(b) => Some(if b then 1 else 0)
    case JStr(s) => ParseInt(s)
    case _ => None
  }

  /** `int(stats.get(key, 0))`. */
  function Count(stats: map<string, Json>, key: string): Option<int>
  {
    if key in stats then IntOf(stats[key]) else Some(0)
  }

  /** The stats stored for an item, or None when building them raises. */
  function ItemStats(item: Item): Option<VideoStats>
  {
    var v := Count(item.statistics, "viewCount");
    var l := Count(item.statistics, "likeCount");
    var c := Count(item.statistics, "commentCount");
    if v.Some? && l.Some? && c.Some? then Some(VideoStats(v.value, l.value, c.value)) else None
  }

  /** An item whose id and counts can be read. */
  predicate WellFormed(item: Item)
  {
    item.id.Some? && ItemStats(item).Some?
  }

  /** A missing count reads as 0; a count the API sends as decimal text is its value. */
  lemma StatsDefaults(item: Item)
    requires ItemStats(item).Some?
    ensures "viewCount" !in item.statistics ==> ItemStats(item).value.views == 0
    ensures "likeCount" !in item.statistics ==> ItemStats(item).value.likes == 0
    ensures "commentCount" !in item.statistics ==> ItemStats(item).value.comments == 0
  {
  }

  /** The statistics object the API sends for `s`, counts as text. */
  function StatisticsOf(s: VideoStats): map<string, Json>
  {
    map["viewCount" := JStr(IntText(s.views)), "likeCount" := JStr(IntText(s.likes)),
        "commentCount" := JStr(IntText(s.comments))]
  }

  /** Reading back the counts the API sent gives the video's stats. */
  lemma StatsRoundTrip(id: string, s: VideoStats)
    ensures WellFormed(Item(Some(id), StatisticsOf(s)))
    ensures ItemStats(Item(Some(id), StatisticsOf(s))) == Some(s)
  {
    var m := StatisticsOf(s);
    StatisticsKeys(s);
    CountOfText(m, "viewCount", s.views);
    CountOfText(m, "likeCount", s.likes);
    CountOfText(m, "commentCount", s.comments);
  }

  lemma StatisticsKeys(s: VideoStats)
    ensures var m := StatisticsOf(s);
      && "viewCount" in m && m["viewCount"] == JStr(IntText(s.views))
      && "likeCount" in m && m["likeCount"] == JStr(IntText(s.likes))
      && "commentCount" in m && m["commentCount"] == JStr(IntText(s.comments))
  {
  }

  /** A count sent as the decimal text of `n` reads as `n`. */
  lemma CountOfText(m: map<string, Json>, key: string, n: int)
    requires key in m && m[key] == JStr(IntText(n))
    ensures Count(m, key) == Some(n)
  {
    IntTextRoundTrip(n);
  }

  /** A Python dict from video id to stats: keys in insertion order, and the values. */
  datatype StatsDict = StatsDict(keys: seq<string>, values: map<string, VideoStats>)

  const Empty: StatsDict := StatsDict([], map[])

  ghost predicate DictValid(d: StatsDict)
  {
    && (forall i, j :: 0 <= i < j < |d.keys| ==> d.keys[i] != d.keys[j])
    && (forall k :: k in d.values <==> k in d.keys)
  }

  /** `d[k] = v`: a new key goes last, an existing one keeps its place. */
  function Put(d: StatsDict, k: string, v: VideoStats): StatsDict
  {
    StatsDict(if k in d.values then d.keys else d.keys + [k], d.values[k := v])
  }

  lemma PutFacts(d: StatsDict, k: string, v: VideoStats)
    requires DictValid(d)
    ensures DictValid(Put(d, k, v)) && d.keys <= Put(d, k, v).keys
    ensures Put(d, k, v).values == d.values[k := v]
  {
  }

  /** The items of one response stored one after another; the first item whose id or counts
      cannot be read raises and ends the batch, the items before it staying stored. */
  function StoreItems(d: StatsDict, items: seq<Item>): StatsDict
    decreases |items|
  {
    if items == [] || !WellFormed(items[0]) then d
    else StoreItems(Put(d, items[0].id.value, ItemStats(items[0]).value), items[1..])
  }

  /** The batches from the k-th request on; a request that fails stores nothing. */
  function FetchBatches(d: StatsDict, batches: seq<seq<string>>, api: Api, k: nat): StatsDict
    decreases |batches|
  {
    if batches == [] then d
    else
      var d' := match api(k, batches[0]) case Ok(items) => StoreItems(d, items) case Err(_) => d;
      FetchBatches(d', batches[1..], api, k + 1)
  }

  /** `batch_fetch_video_stats`: the stats, and the id batches sent, one request each. */
  function BatchFetch(videoIds: seq<string>, api: Api): (StatsDict, seq<seq<string>>)
  {
    if videoIds == [] then (Empty, [])
    else (FetchBatches(Empty, Chunks(videoIds, BatchSize), api, 0), Chunks(videoIds, BatchSize))
  }

  method BatchFetchVideoStats(videoIds: seq<string>, api: Api) returns (stats: StatsDict, requests: seq<seq<string>>)
    ensures (stats, requests) == BatchFetch(videoIds, api)
  {
    if videoIds == [] {
      return Empty, [];
    }
    stats, requests := Empty, [];
    var i := 0;
    while i < |videoIds|
      invariant 0 <= i <= |videoIds|
      invariant requests + Chunks(videoIds[i..], BatchSize) == Chunks(videoIds, BatchSize)
      invariant FetchBatches(stats, Chunks(videoIds[i..], BatchSize), api, |requests|)
             == FetchBatches(Empty, Chunks(videoIds, BatchSize), api, 0)
    {
      var end := if i + BatchSize < |videoIds| then i + BatchSize else |videoIds|;
      var batch := videoIds[i..end];
      ChunksStep(videoIds, i, end, BatchSize);
      var response := api(|requests|, batch);
      if response.Ok? {
        stats := StoreResponse(stats, response.value);
      }
      assert requests + [batch] + Chunks(videoIds[end..], BatchSize) == requests + Chunks(videoIds[i..], BatchSize);
      requests := requests + [batch];
      i := end;
    }
    assert videoIds[i..] == [] && Chunks(videoIds[i..], BatchSize) == [];
    assert requests + [] == requests;
  }

  /** The loop over the items of one response. */
  method StoreResponse(d0: StatsDict, items: seq<Item>) returns (d: StatsDict)
    ensures d == StoreItems(d0, items)
  {
    d := d0;
    var j := 0;
    while j < |items|
      invariant 0 <= j <= |items|
      invariant StoreItems(d, items[j..]) == StoreItems(d0, items)
    {
      assert items[j..][0] == items[j] && items[j..][1..] == items[j + 1..];
      var item := items[j];
      var s := ItemStats(item);
      if item.id.None? || s.None? {
        return;
      }
      d := Put(d, item.id.value, s.value);
      j := j + 1;
    }
    assert items[j..] == [];
  }

  /** Requests go out in order, ceil(n / 50) of them, each naming 1 to 50 ids, whatever the
      API answers; no ids means no request and no stats. */
  lemma Requests(videoIds: seq<string>, api: Api)
    ensures BatchFetch(videoIds, api).1 == Chunks(videoIds, BatchSize)
    ensures Flatten(BatchFetch(videoIds, api).1) == videoIds
    ensures |BatchFetch(videoIds, api).1| == (|videoIds| + BatchSize - 1) / BatchSize
    ensures forall b :: b in BatchFetch(videoIds, api).1 ==> 0 < |b| <= BatchSize
    ensures videoIds == [] ==> BatchFetch(videoIds, api).0 == Empty
  {
    ChunksFlatten(videoIds, BatchSize);
    ChunksCount(videoIds, BatchSize);
    ChunksSizes(videoIds, BatchSize);
  }

  /** The items of the responses that arrived, from the k-th request on. */
  function Answered(batches: seq<seq<string>>, api: Api, k: nat): seq<Item>
    decreases |batches|
  {
    if batches == [] then []
    else (match api(k, batches[0]) case Ok(items) => items case Err(_) => []) + Answered(batches[1..], api, k + 1)
  }

  /** Storing items keeps the dict well formed; every key it gains or rewrites comes from one of
      the items, and when all items can be read, every one of them is stored. */
  lemma {:induction false} StoreItemsFacts(d: StatsDict, items: seq<Item>)
    requires DictValid(d)
    ensures DictValid(StoreItems(d, items)) && d.keys <= StoreItems(d, items).keys
    ensures forall id :: id in StoreItems(d, items).values ==>
      (id in d.values && StoreItems(d, items).values[id] == d.values[id])
      || (exists it :: it in items && it.id == Some(id) && ItemStats(it) == Some(StoreItems(d, items).values[id]))
    ensures (forall it :: it in items ==> WellFormed(it)) ==>
      forall it :: it in items ==> it.id.value in StoreItems(d, items).values
    decreases |items|
  {
    if items != [] && WellFormed(items[0]) {
      var d1 := Put(d, items[0].id.value, ItemStats(items[0]).value);
      PutFacts(d, items[0].id.value, ItemStats(items[0]).value);
      StoreItemsFacts(d1, items[1..]);
      var r := StoreItems(d, items);
      assert r == StoreItems(d1, items[1..]);
      forall id | id in r.values
        ensures (id in d.values && r.values[id] == d.values[id])
             || (exists it :: it in items && it.id == Some(id) && ItemStats(it) == Some(r.values[id]))
      {
        if id in d1.values && r.values[id] == d1.values[id] {
          if id == items[0].id.value {
            assert items[0] in items;
          }
        } else {
          var it :| it in items[1..] && it.id == Some(id) && ItemStats(it) == Some(r.values[id]);
          assert it in items;
        }
      }
      if forall it :: it in items ==> WellFormed(it) {
        forall it | it in items ensures it.id.value in r.values {
          if it != items[0] {
            assert it in items[1..];
          }
        }
      }
    }
  }

  /** The fetched stats: every key names an item some successful response returned, holding
      that item's counts; when every returned item can be read, every one is stored. */
  lemma {:induction false} FetchFacts(d: StatsDict, batches: seq<seq<string>>, api: Api, k: nat)
    requires DictValid(d)
    ensures DictValid(FetchBatches(d, batches, api, k))
    ensures forall id :: id in FetchBatches(d, batches, api, k).values ==>
      (id in d.values && FetchBatches(d, batches, api, k).values[id] == d.values[id])
      || (exists it :: it in Answered(batches, api, k) && it.id == Some(id)
                       && ItemStats(it) == Some(FetchBatches(d, batches, api, k).values[id]))
    ensures (forall it :: it in Answered(batches, api, k) ==> WellFormed(it)) ==>
      forall it :: it in Answered(batches, api, k) ==> it.id.value in FetchBatches(d, batches, api, k).values
    decreases |batches|
  {
    if batches != [] {
      var here := match api(k, batches[0]) case Ok(items) => items case Err(_) => [];
      var d1 := match api(k, batches[0]) case Ok(items) => StoreItems(d, items) case Err(_) => d;
      StoreItemsFacts(d, here);
      assert d1 == StoreItems(d, here);
      FetchFacts(d1, batches[1..], api, k + 1);
      var r := FetchBatches(d, batches, api, k);
      var all := Answered(batches, api, k);
      assert r == FetchBatches(d1, batches[1..], api, k + 1);
      assert all == here + Answered(batches[1..], api, k + 1);
      forall id | id in r.values
        ensures (id in d.values && r.values[id] == d.values[id])
             || (exists it :: it in all && it.id == Some(id) && ItemStats(it) == Some(r.values[id]))
      {
        if id in d1.values && r.values[id] == d1.values[id] {
          if !(id in d.values && d1.values[id] == d.values[id]) {
            var it :| it in here && it.id == Some(id) && ItemStats(it) == Some(d1.values[id]);
            assert it in all;
          }
        } else {
          var it :| it in Answered(batches[1..], api, k + 1) && it.id == Some(id) && ItemStats(it) == Some(r.values[id]);
          assert it in all;
        }
      }
      if forall it :: it in all ==> WellFormed(it) {
        assert forall it :: it in here ==> it in all;
        assert forall it :: it in Answered(batches[1..], api, k + 1) ==> it in all;
        StoreItemsFacts(d, here);
        StoreFetchKeeps(d1, batches[1..], api, k + 1);
      }
    }
  }

  /** Keys, once stored, stay stored. */
  lemma {:induction false} StoreFetchKeeps(d: StatsDict, batches: seq<seq<string>>, api: Api, k: nat)
    requires DictValid(d)
    ensures forall id :: id in d.values ==> id in FetchBatches(d, batches, api, k).values
    decreases |batches|
  {
    if batches != [] {
      var d1 := match api(k, batches[0]) case Ok(items) => StoreItems(d, items) case Err(_) => d;
      if api(k, batches[0]).Ok? {
        StoreItemsFacts(d, api(k, batches[0]).value);
      }
      StoreFetchKeeps(d1, batches[1..], api, k + 1);
    }
  }

  /** A failed request leaves the stats as they were, and the requests after it still go out. */
  lemma FailedBatchStoresNothing(d: StatsDict, batches: seq<seq<string>>, api: Api, k: nat)
    requires batches != [] && api(k, batches[0]).Err?
    ensures FetchBatches(d, batches, api, k) == FetchBatches(d, batches[1..], api, k + 1)
    ensures Answered(batches, api, k) == Answered(batches[1..], api, k + 1)
  {
  }

  // ---------------------------------------------------------------------
  // insert_stats_snapshot and update_video_stats
  // ---------------------------------------------------------------------

  /** A stored video: `post_id`, `urn` (the YouTube id) and `author_username` ("" when missing
      or empty). */
  datatype Video = Video(postId: string, urn: string, author: string)

  /** A `data_downloads` row: `stats_json` is held as the stats it encodes. */
  datatype Snapshot = Snapshot(downloadId: string, postId: string, downloadedAt: string,
                               totalReactions: int, stats: VideoStats)

  /** The snapshot inserts: whether the a-th one succeeds, the download id it generates and the
      time it reads. */
  datatype Inserts = Inserts(ok: nat -> bool, downloadId: nat -> string, clock: nat -> string)

  /** The record `insert_stats_snapshot` builds for its a-th call. */
  function SnapshotOf(env: Inserts, a: nat, postId: string, s: VideoStats): (r: Snapshot)
    ensures r.postId == postId && r.stats == s && r.totalReactions == s.likes
  {
    Snapshot(env.downloadId(a), postId, env.clock(a), s.likes, s)
  }

  /** `{v['urn']: v for v in videos}`: the last video with a urn wins. */
  function VideoMap(videos: seq<Video>): (m: map<string, Video>)
    ensures forall v :: v in videos ==> v.urn in m
    ensures forall u :: u in m ==> m[u] in videos && m[u].urn == u
    decreases |videos|
  {
    if videos == [] then map[]
    else
      var last := videos[|videos| - 1];
      assert forall v :: v in videos[..|videos| - 1] ==> v in videos;
      assert forall v :: v in videos ==> v == last || v in videos[..|videos| - 1];
      VideoMap(videos[..|videos| - 1])[last.urn := last]
  }

  /** A video with no later video of the same urn is the one the map holds. */
  lemma {:induction false} VideoMapLast(videos: seq<Video>, i: nat)
    requires i < |videos| && forall j :: i < j < |videos| ==> videos[j].urn != videos[i].urn
    ensures VideoMap(videos)[videos[i].urn] == videos[i]
    decreases |videos|
  {
    if i < |videos| - 1 {
      var init := videos[..|videos| - 1];
      assert init[i] == videos[i];
      VideoMapLast(init, i);
    }
  }

  /** What the snapshot loop has done so far: counters, the channel set, the rows inserted,
      the ids whose snapshot went in, and the number of inserts tried. */
  datatype Tally = Tally(updated: nat, errors: nat, channels: set<string>, inserted: seq<Snapshot>,
                         insertedIds: seq<string>, attempts: nat)

  const Start: Tally := Tally(0, 0, {}, [], [], 0)

  function SnapStep(t: Tally, id: string, stats: map<string, VideoStats>, vmap: map<string, Video>, env: Inserts): Tally
    requires id in stats
  {
    if id !in vmap then t
    else
      var video := vmap[id];
      if env.ok(t.attempts) then
        Tally(t.updated + 1, t.errors,
              if video.author != "" then t.channels + {video.author} else t.channels,
              t.inserted + [SnapshotOf(env, t.attempts, video.postId, stats[id])],
              t.insertedIds + [id], t.attempts + 1)
      else t.(errors := t.errors + 1, attempts := t.attempts + 1)
  }

  /** The loop over the fetched stats, in the dict's order. */
  function Snap(t: Tally, keys: seq<string>, stats: map<string, VideoStats>, vmap: map<string, Video>, env: Inserts): Tally
    requires forall k :: k in keys ==> k in stats
    decreases |keys|
  {
    if keys == [] then t else Snap(SnapStep(t, keys[0], stats, vmap, env), keys[1..], stats, vmap, env)
  }

  /** The number of ids that name a stored video. */
  function Known(keys: seq<string>, vmap: map<string, Video>): (n: nat)
    ensures n <= |keys|
    decreases |keys|
  {
    if keys == [] then 0 else (if keys[0] in vmap then 1 else 0) + Known(keys[1..], vmap)
  }

  /** The channels of the ids whose snapshot went in. */
  function Authors(ids: seq<string>, vmap: map<string, Video>): set<string>
  {
    set id | id in ids && id in vmap && vmap[id].author != "" :: vmap[id].author
  }

  predicate Consistent(t: Tally, stats: map<string, VideoStats>, vmap: map<string, Video>)
  {
    && t.updated == |t.insertedIds| == |t.inserted|
    && t.updated + t.errors == t.attempts
    && t.channels == Authors(t.insertedIds, vmap)
    && forall i :: 0 <= i < |t.inserted| ==>
         t.insertedIds[i] in vmap && t.insertedIds[i] in stats
         && t.inserted[i].postId == vmap[t.insertedIds[i]].postId
         && t.inserted[i].stats == stats[t.insertedIds[i]]
         && t.inserted[i].totalReactions == t.inserted[i].stats.likes
  }

  /** Ids absent from the video map are skipped; every other id is one insert, counted as
      updated or as an error; the channel set holds exactly the authors of the videos whose
      snapshot went in, and each snapshot carries its video's post id, its stats and their
      likes as total reactions. */
  lemma {:induction false} SnapFacts(t: Tally, keys: seq<string>, stats: map<string, VideoStats>,
                                     vmap: map<string, Video>, env: Inserts)
    requires forall k :: k in keys ==> k in stats
    requires Consistent(t, stats, vmap)
    ensures Consistent(Snap(t, keys, stats, vmap, env), stats, vmap)
    ensures Snap(t, keys, stats, vmap, env).attempts == t.attempts + Known(keys, vmap)
    ensures t.inserted <= Snap(t, keys, stats, vmap, env).inserted
    ensures forall id :: id in Snap(t, keys, stats, vmap, env).insertedIds ==> id in t.insertedIds || id in keys
    decreases |keys|
  {
    if keys != [] {
      var t1 := SnapStep(t, keys[0], stats, vmap, env);
      if keys[0] in vmap && env.ok(t.attempts) {
        var id := keys[0];
        assert t1.insertedIds == t.insertedIds + [id];
        assert Authors(t1.insertedIds, vmap) == Authors(t.insertedIds, vmap) + (if vmap[id].author != "" then {vmap[id].author} else {});
      }
      assert Consistent(t1, stats, vmap);
      SnapFacts(t1, keys[1..], stats, vmap, env);
      assert forall k :: k in keys[1..] ==> k in keys;
    }
  }

  datatype UpdateStats = UpdateStats(total: nat, updated: nat, errors: nat, apiCalls: nat, channelsUpdated: set<string>)

  /** `update_video_stats` short of the profile sync: the stats, the snapshot rows inserted and
      the API requests sent. */
  datatype Outcome = Outcome(stats: UpdateStats, snapshots: seq<Snapshot>, requests: seq<seq<string>>)

  function Urns(videos: seq<Video>): (r: seq<string>)
    ensures |r| == |videos| && forall i :: 0 <= i < |videos| ==> r[i] == videos[i].urn
  {
    seq(|videos|, i requires 0 <= i < |videos| => videos[i].urn)
  }

  function UpdateVideoStats(videos: seq<Video>, api: Api, env: Inserts): Outcome
  {
    if videos == [] then Outcome(UpdateStats(0, 0, 0, 0, {}), [], [])
    else
      var fetched := BatchFetch(Urns(videos), api);
      var d := fetched.0;
      FetchValid(Urns(videos), api);
      var t := Snap(Start, d.keys, d.values, VideoMap(videos), env);
      Outcome(UpdateStats(|videos|, t.updated, t.errors, (|videos| + BatchSize - 1) / BatchSize, t.channels),
              t.inserted, fetched.1)
  }

  lemma FetchValid(videoIds: seq<string>, api: Api)
    ensures DictValid(BatchFetch(videoIds, api).0)
    ensures forall k :: k in BatchFetch(videoIds, api).0.keys ==> k in BatchFetch(videoIds, api).0.values
  {
    if videoIds != [] {
      FetchFacts(Empty, Chunks(videoIds, BatchSize), api, 0);
    }
  }

  /** A run over the stored videos: `total` is their number and `api_calls` the number of
      requests sent, ceil(n / 50), whatever the API answered; `updated + errors` is the number
      of fetched ids that name a stored video; the channels are the authors of the videos whose
      snapshot went in; each snapshot row holds the stats fetched for its video and their likes
      as total reactions. */
  lemma UpdateAccounts(videos: seq<Video>, api: Api, env: Inserts)
    ensures var o := UpdateVideoStats(videos, api, env);
      && o.stats.total == |videos|
      && o.stats.apiCalls == |o.requests| == (|videos| + BatchSize - 1) / BatchSize
      && Flatten(o.requests) == Urns(videos)
      && o.stats.updated == |o.snapshots|
      && (videos != [] ==>
            var d := BatchFetch(Urns(videos), api).0;
            var vmap := VideoMap(videos);
            && (forall k :: k in d.keys ==> k in d.values)
            && var t := Snap(Start, d.keys, d.values, vmap, env);
            && o.stats.updated + o.stats.errors == Known(d.keys, vmap)
            && o.stats.channelsUpdated == Authors(t.insertedIds, vmap)
            && |t.insertedIds| == |o.snapshots|
            && (forall i :: 0 <= i < |o.snapshots| ==>
                  t.insertedIds[i] in d.values && t.insertedIds[i] in vmap
                  && o.snapshots[i].postId == vmap[t.insertedIds[i]].postId
                  && o.snapshots[i].stats == d.values[t.insertedIds[i]]
                  && o.snapshots[i].totalReactions == o.snapshots[i].stats.likes))
  {
    Requests(Urns(videos), api);
    if videos != [] {
      var d := BatchFetch(Urns(videos), api).0;
      FetchValid(Urns(videos), api);
      var vmap := VideoMap(videos);
      assert Authors([], vmap) == {};
      SnapFacts(Start, d.keys, d.values, vmap, env);
    }
  }

  // ---------------------------------------------------------------------
  // update_profile_sync_time
  // ---------------------------------------------------------------------

  datatype ProfileRow = ProfileRow(username: string, platform: string, lastSyncedAt: Option<string>,
                                   updatedAt: Option<string>)

  /** The rows `.eq('username', u).eq('platform', 'youtube')` selects. */
  predicate Hit(r: ProfileRow, u: string)
  {
    r.username == u && r.platform == "youtube"
  }

  function Stamped(r: ProfileRow, now: string): ProfileRow
  {
    r.(lastSyncedAt := Some(now), updatedAt := Some(now))
  }

  /** The update for one username. */
  function Stamp(rows: seq<ProfileRow>, u: string, now: string): seq<ProfileRow>
  {
    seq(|rows|, i requires 0 <= i < |rows| => if Hit(rows[i], u) then Stamped(rows[i], now) else rows[i])
  }

  predicate AnyHit(rows: seq<ProfileRow>, u: string)
  {
    exists i :: 0 <= i < |rows| && Hit(rows[i], u)
  }

  /** The usernames from the k-th update request on; a request that fails changes nothing and
      is not counted; one that returns rows counts once. */
  function SyncProfiles(rows: seq<ProfileRow>, usernames: seq<string>, now: string, fails: nat -> bool, k: nat)
    : (seq<ProfileRow>, nat)
    decreases |usernames|
  {
    if usernames == [] then (rows, 0)
    else
      var u := usernames[0];
      var here := if fails(k) then (rows, 0) else (Stamp(rows, u, now), if AnyHit(rows, u) then 1 else 0);
      var rest := SyncProfiles(here.0, usernames[1..], now, fails, k + 1);
      (rest.0, here.1 + rest.1)
  }

  /** `update_profile_sync_time` on the profiles table. */
  method UpdateProfileSyncTime(rows0: seq<ProfileRow>, usernames: seq<string>, now: string, fails: nat -> bool)
    returns (rows: seq<ProfileRow>, updatedCount: nat)
    ensures (rows, updatedCount) == SyncProfiles(rows0, usernames, now, fails, 0)
  {
    if usernames == [] {
      return rows0, 0;
    }
    rows, updatedCount := rows0, 0;
    var k := 0;
    while k < |usernames|
      invariant 0 <= k <= |usernames|
      invariant var rest := SyncProfiles(rows, usernames[k..], now, fails, k);
        (rest.0, updatedCount + rest.1) == SyncProfiles(rows0, usernames, now, fails, 0)
    {
      assert usernames[k..][0] == usernames[k] && usernames[k..][1..] == usernames[k + 1..];
      if !fails(k) {
        var matched := AnyHit(rows, usernames[k]);
        rows := Stamp(rows, usernames[k], now);
        if matched {
          updatedCount := updatedCount + 1;
        }
      }
      k := k + 1;
    }
    assert usernames[k..] == [];
  }

  /** Whether some request from the k-th on, for a username the row matches, went through. */
  predicate Synced(r: ProfileRow, usernames: seq<string>, fails: nat -> bool, k: nat)
  {
    exists j :: 0 <= j < |usernames| && !fails(k + j) && Hit(r, usernames[j])
  }

  /** A row is synced by the requests from the k-th on when the first one went through and
      matches it, or a later one synced it. */
  lemma SyncedCons(r: ProfileRow, usernames: seq<string>, fails: nat -> bool, k: nat)
    requires usernames != []
    ensures Synced(r, usernames, fails, k)
      <==> (!fails(k) && Hit(r, usernames[0])) || Synced(r, usernames[1..], fails, k + 1)
  {
    if Synced(r, usernames[1..], fails, k + 1) {
      var j :| 0 <= j < |usernames[1..]| && !fails(k + 1 + j) && Hit(r, usernames[1..][j]);
      assert !fails(k + (j + 1)) && Hit(r, usernames[j + 1]);
    }
    if Synced(r, usernames, fails, k) && !(!fails(k) && Hit(r, usernames[0])) {
      var j :| 0 <= j < |usernames| && !fails(k + j) && Hit(r, usernames[j]);
      assert j > 0;
      assert usernames[1..][j - 1] == usernames[j] && k + 1 + (j - 1) == k + j;
    }
  }

  /** At most one profile is counted per username, and the table keeps its rows. */
  lemma {:induction false} SyncCount(rows: seq<ProfileRow>, usernames: seq<string>, now: string, fails: nat -> bool, k: nat)
    ensures SyncProfiles(rows, usernames, now, fails, k).1 <= |usernames|
    ensures |SyncProfiles(rows, usernames, now, fails, k).0| == |rows|
    decreases |usernames|
  {
    if usernames != [] {
      var here := if fails(k) then rows else Stamp(rows, usernames[0], now);
      SyncCount(here, usernames[1..], now, fails, k + 1);
    }
  }

  /** Row i is stamped with the sync time exactly when a request for its username on platform
      `youtube` went through; otherwise it is unchanged. */
  lemma {:induction false} SyncRow(rows: seq<ProfileRow>, usernames: seq<string>, now: string, fails: nat -> bool,
                                   k: nat, i: nat)
    requires i < |rows|
    ensures |SyncProfiles(rows, usernames, now, fails, k).0| == |rows|
    ensures SyncProfiles(rows, usernames, now, fails, k).0[i]
      == if Synced(rows[i], usernames, fails, k) then Stamped(rows[i], now) else rows[i]
    decreases |usernames|
  {
    SyncCount(rows, usernames, now, fails, k);
    if usernames != [] {
      var u := usernames[0];
      var here := if fails(k) then rows else Stamp(rows, u, now);
      assert here[i] == if !fails(k) && Hit(rows[i], u) then Stamped(rows[i], now) else rows[i];
      SyncRow(here, usernames[1..], now, fails, k + 1, i);
      assert Synced(here[i], usernames[1..], fails, k + 1) == Synced(rows[i], usernames[1..], fails, k + 1);
      SyncedCons(rows[i], usernames, fails, k);
    }
  }

  /** At most one profile is counted per username; a row is stamped with the sync time exactly
      when a request for its username on platform `youtube` went through, and every other row
      is unchanged. */
  lemma SyncFacts(rows: seq<ProfileRow>, usernames: seq<string>, now: string, fails: nat -> bool)
    ensures SyncProfiles(rows, usernames, now, fails, 0).1 <= |usernames|
    ensures |SyncProfiles(rows, usernames, now, fails, 0).0| == |rows|
    ensures forall i :: 0 <= i < |rows| ==>
      SyncProfiles(rows, usernames, now, fails, 0).0[i]
        == if Synced(rows[i], usernames, fails, 0) then Stamped(rows[i], now) else rows[i]
  {
    SyncCount(rows, usernames, now, fails, 0);
    forall i | 0 <= i < |rows|
      ensures SyncProfiles(rows, usernames, now, fails, 0).0[i]
        == if Synced(rows[i], usernames, fails, 0) then Stamped(rows[i], now) else rows[i]
    {
      SyncRow(rows, usernames, now, fails, 0, i);
    }
  }

  /** An empty list counts nothing and changes nothing. */
  lemma SyncEmpty(rows: seq<ProfileRow>, now: string, fails: nat -> bool)
    ensures SyncProfiles(rows, [], now, fails, 0) == (rows, 0)
  {
  }

  // ---------------------------------------------------------------------
  // The imperative update_video_stats
  // ---------------------------------------------------------------------

  /** `update_video_stats`: fetch, insert one snapshot per fetched id that names a stored video,
      then stamp the sync time of the channels updated, in the order `list(set)` gives
      (`synced`). */
  method UpdateVideoStatsRun(videos: seq<Video>, api: Api, env: Inserts, rows0: seq<ProfileRow>, now: string,
                             fails: nat -> bool)
    returns (o: Outcome, synced: seq<string>, rows: seq<ProfileRow>)
    ensures o == UpdateVideoStats(videos, api, env)
    ensures forall c :: c in synced <==> c in o.stats.channelsUpdated
    ensures forall i, j :: 0 <= i < j < |synced| ==> synced[i] != synced[j]
    ensures rows == SyncProfiles(rows0, synced, now, fails, 0).0
  {
    if videos == [] {
      return Outcome(UpdateStats(0, 0, 0, 0, {}), [], []), [], rows0;
    }
    var urns, vmap := UrnsAndMap(videos);
    var d, requests := BatchFetchVideoStats(urns, api);
    FetchValid(urns, api);
    var t := SnapLoop(d, vmap, env);
    var apiCalls := (|videos| + BatchSize - 1) / BatchSize;
    o := Outcome(UpdateStats(|videos|, t.updated, t.errors, apiCalls, t.channels), t.inserted, requests);
    synced := [];
    rows := rows0;
    if t.channels != {} {
      synced := ListOf(t.channels);
      var count;
      rows, count := UpdateProfileSyncTime(rows0, synced, now, fails);
    }
  }

  /** `video_ids` and `video_map`, built in one pass here. */
  method UrnsAndMap(videos: seq<Video>) returns (urns: seq<string>, vmap: map<string, Video>)
    ensures urns == Urns(videos) && vmap == VideoMap(videos)
  {
    urns, vmap := [], map[];
    var i := 0;
    while i < |videos|
      invariant 0 <= i <= |videos| && urns == Urns(videos[..i]) && vmap == VideoMap(videos[..i])
    {
      PrefixStep(videos, i);
      urns := urns + [videos[i].urn];
      vmap := vmap[videos[i].urn := videos[i]];
      i := i + 1;
    }
    assert videos[..i] == videos;
  }

  lemma PrefixStep(videos: seq<Video>, i: nat)
    requires i < |videos|
    ensures Urns(videos[..i + 1]) == Urns(videos[..i]) + [videos[i].urn]
    ensures VideoMap(videos[..i + 1]) == VideoMap(videos[..i])[videos[i].urn := videos[i]]
  {
    assert videos[..i + 1][..i] == videos[..i];
  }

  /** The loop over `video_stats.items()`. */
  method SnapLoop(d: StatsDict, vmap: map<string, Video>, env: Inserts) returns (t: Tally)
    requires forall k :: k in d.keys ==> k in d.values
    ensures t == Snap(Start, d.keys, d.values, vmap, env)
  {
    t := Start;
    var j := 0;
    while j < |d.keys|
      invariant 0 <= j <= |d.keys|
      invariant Snap(t, d.keys[j..], d.values, vmap, env) == Snap(Start, d.keys, d.values, vmap, env)
    {
      assert d.keys[j..][0] == d.keys[j] && d.keys[j..][1..] == d.keys[j + 1..];
      var id := d.keys[j];
      if id in vmap {
        var video := vmap[id];
        if env.ok(t.attempts) {
          var snapshot := SnapshotOf(env, t.attempts, video.postId, d.values[id]);
          var channels := if video.author != "" then t.channels + {video.author} else t.channels;
          t := Tally(t.updated + 1, t.errors, channels, t.inserted + [snapshot], t.insertedIds + [id], t.attempts + 1);
        } else {
          t := t.(errors := t.errors + 1, attempts := t.attempts + 1);
        }
      }
      j := j + 1;
    }
    assert d.keys[j..] == [];
  }

  /** `list(s)`: the elements of a set, each once, in some order. */
  method ListOf(s: set<string>) returns (xs: seq<string>)
    ensures forall c :: c in xs <==> c in s
    ensures forall i, j :: 0 <= i < j < |xs| ==> xs[i] != xs[j]
  {
    xs := [];
    var rest := s;
    while rest != {}
      invariant rest <= s
      invariant forall c :: c in xs <==> c in s && c !in rest
      invariant forall i, j :: 0 <= i < j < |xs| ==> xs[i] != xs[j]
      decreases rest
    {
      var c :| c in rest;
      xs := xs + [c];
      rest := rest - {c};
    }
  }
}
