/**
 * Fetching new videos from monitored YouTube channels (youtube_fetcher.py).
 *
 * yt-dlp is an oracle from the command line it is given to its standard output, or to an
 * error (not installed, non-zero exit). `json.loads` is a second oracle, from text to a JSON
 * value or a decoding error. Supabase holds the `posts`, `post_media` and `profiles` rows;
 * whether its k-th request succeeds, the k-th `uuid4().hex[:12]`, the clock and Python's
 * `str()` of a list or dict value are parameters.
 */
module YoutubeFetcher {
  import opened Common

  type Row = map<string, Json>

  // ---------------------------------------------------------------------
  // Lines of yt-dlp's output
  // ---------------------------------------------------------------------

  /** `s.split(c)`: the pieces between the occurrences of `c`, at least one. */
  function SplitOn(s: string, c: char): (parts: seq<string>)
    ensures |parts| >= 1
    ensures forall k :: 0 <= k < |parts| ==> c !in parts[k]
    decreases |s|
  {
    var i := IndexOf(s, c);
    if i == |s| then [s] else [s[..i]] + SplitOn(s[i + 1..], c)
  }

  /** `c.join(parts)`. */
  function Join(parts: seq<string>, c: char): string
    requires |parts| >= 1
  {
    if |parts| == 1 then parts[0] else parts[0] + [c] + Join(parts[1..], c)
  }

  /** Splitting loses nothing: joining the pieces back gives the text. */
  lemma {:induction false} SplitJoin(s: string, c: char)
    ensures Join(SplitOn(s, c), c) == s
    decreases |s|
  {
    var i := IndexOf(s, c);
    if i < |s| {
      var rest := SplitOn(s[i + 1..], c);
      SplitJoin(s[i + 1..], c);
      JoinCons(s[..i], rest, c);
      assert s[..i] + [c] + s[i + 1..] == s;
    }
  }

  /** Joining a first piece before more pieces. */
  lemma JoinCons(first: string, rest: seq<string>, c: char)
    requires |rest| >= 1
    ensures Join([first] + rest, c) == first + [c] + Join(rest, c)
  {
    assert ([first] + rest)[1..] == rest;
  }

  // ---------------------------------------------------------------------
  // Parsing the flat listing
  // ---------------------------------------------------------------------

  /** `json.loads`; None: it raised `JSONDecodeError`. */
  type Decoder = string -> Option<Json>

  /** What one listing line contributes: nothing, a video id, or an exception that ends the
      fetch (a decoded value that is not an object has no `get`). */
  datatype LineFate = Skip | Keep(id: Json) | Raise

  function ListingLine(decode: Decoder, line: string): LineFate
  {
    if line == [] then Skip
    else
      match decode(line)
      case None => Skip
      case Some(JObject(meta)) =>
        if Get(meta, "_type") == JStr("url") && Truthy(Get(meta, "id")) then Keep(meta["id"]) else Skip
      case Some(_) => Raise
  }

  /** The ids of the lines, in order; None: a line raised. */
  function ListedIds(decode: Decoder, lines: seq<string>): Option<seq<Json>>
    decreases |lines|
  {
    if lines == [] then Some([])
    else
      var before := ListedIds(decode, lines[..|lines| - 1]);
      if before.None? then None
      else
        match ListingLine(decode, lines[|lines| - 1])
        case Skip => before
        case Keep(id) => Some(before.value + [id])
        case Raise => None
  }

  /** The ids of one listing's output. */
  function ListingIds(decode: Decoder, stdout: string): Option<seq<Json>>
  {
    ListedIds(decode, SplitOn(Strip(stdout), '\n'))
  }

  /** The loop over the lines of a listing. */
  method ParseListing(decode: Decoder, stdout: string) returns (ids: Option<seq<Json>>)
    ensures ids == ListingIds(decode, stdout)
  {
    var lines := SplitOn(Strip(stdout), '\n');
    var found: seq<Json> := [];
    for i := 0 to |lines|
      invariant ListedIds(decode, lines[..i]) == Some(found)
    {
      var line := lines[i];
      assert lines[..i + 1][..i] == lines[..i];
      if line != [] {
        var meta := decode(line);
        if meta.Some? {
          if !meta.value.JObject? {
            ListedIdsRaise(decode, lines, i);
            return None;
          }
          var fields := meta.value.fields;
          if Get(fields, "_type") == JStr("url") && Truthy(Get(fields, "id")) {
            found := found + [fields["id"]];
          }
        }
      }
    }
    assert lines[..|lines|] == lines;
    ids := Some(found);
  }

  /** Listing one run of lines after another: ids concatenate, and a raise anywhere wins. */
  lemma {:induction false} ListedIdsAppend(decode: Decoder, a: seq<string>, b: seq<string>)
    ensures ListedIds(decode, a + b)
         == if ListedIds(decode, a).None? || ListedIds(decode, b).None? then None
            else Some(ListedIds(decode, a).value + ListedIds(decode, b).value)
    decreases |b|
  {
    if b == [] {
      assert a + b == a;
      if ListedIds(decode, a).Some? {
        assert ListedIds(decode, a).value + [] == ListedIds(decode, a).value;
      }
    } else {
      var b' := b[..|b| - 1];
      assert (a + b)[..|a + b| - 1] == a + b';
      assert (a + b)[|a + b| - 1] == b[|b| - 1];
      ListedIdsAppend(decode, a, b');
      var x, y := ListedIds(decode, a), ListedIds(decode, b');
      if x.Some? && y.Some? && ListingLine(decode, b[|b| - 1]).Keep? {
        assert x.value + y.value + [ListingLine(decode, b[|b| - 1]).id]
            == x.value + (y.value + [ListingLine(decode, b[|b| - 1]).id]);
      }
    }
  }

  /** One line's contribution on its own. */
  lemma ListedIdsOne(decode: Decoder, line: string)
    ensures ListedIds(decode, [line])
         == match ListingLine(decode, line)
            case Skip => Some([])
            case Keep(id) => Some([id])
            case Raise => None
  {
    assert [line][..0] == [];
    match ListingLine(decode, line)
    case Keep(id) => assert [] + [id] == [id];
    case _ =>
  }

  /** A line that raises makes the whole listing raise. */
  lemma ListedIdsRaise(decode: Decoder, lines: seq<string>, i: nat)
    requires i < |lines| && ListingLine(decode, lines[i]) == Raise
    ensures ListedIds(decode, lines) == None
  {
    var pre := lines[..i + 1];
    assert pre[..|pre| - 1] == lines[..i] && pre[|pre| - 1] == lines[i];
    assert ListedIds(decode, pre) == None;
    ListedIdsNoneLeft(decode, pre, lines[i + 1..]);
    assert pre + lines[i + 1..] == lines;
  }

  /** Lines after a run that raised do not undo the raise. */
  lemma ListedIdsNoneLeft(decode: Decoder, a: seq<string>, b: seq<string>)
    requires ListedIds(decode, a).None?
    ensures ListedIds(decode, a + b).None?
  {
    ListedIdsAppend(decode, a, b);
  }

  /** The listing raises exactly when some line does; otherwise it keeps, in line order, the
      truthy `id` of every line whose object has `_type` "url", and nothing else — empty and
      undecodable lines contribute nothing. */
  lemma {:induction false} ListedIdsFacts(decode: Decoder, lines: seq<string>)
    ensures ListedIds(decode, lines).None? <==> exists k :: 0 <= k < |lines| && ListingLine(decode, lines[k]) == Raise
    ensures ListedIds(decode, lines).Some? ==>
      && |ListedIds(decode, lines).value| == KeptCount(decode, lines)
      && (forall x :: x in ListedIds(decode, lines).value ==>
            Truthy(x) && exists k :: 0 <= k < |lines| && ListingLine(decode, lines[k]) == Keep(x))
      && (forall k :: 0 <= k < |lines| && ListingLine(decode, lines[k]).Keep? ==>
            ListingLine(decode, lines[k]).id in ListedIds(decode, lines).value)
    decreases |lines|
  {
    if lines != [] {
      var init := lines[..|lines| - 1];
      var last := lines[|lines| - 1];
      ListedIdsFacts(decode, init);
      forall k | 0 <= k < |init| ensures lines[k] == init[k] { }
      if ListingLine(decode, last) == Raise {
        ListedIdsRaise(decode, lines, |lines| - 1);
      }
    }
  }

  /** How many lines contribute an id. */
  function KeptCount(decode: Decoder, lines: seq<string>): nat
    decreases |lines|
  {
    if lines == [] then 0
    else KeptCount(decode, lines[..|lines| - 1]) + if ListingLine(decode, lines[|lines| - 1]).Keep? then 1 else 0
  }

  // ---------------------------------------------------------------------
  // fetch_videos_for_channel
  // ---------------------------------------------------------------------

  /** The yt-dlp invocations: the videos-tab listing, the plain listing, and one video's
      metadata. */
  datatype Command =
    | ListTab(url: string, limit: int)
    | ListAll(url: string, limit: int)
    | Detail(id: Json)

  /** yt-dlp's standard output for a command; Err: it could not run or exited non-zero. */
  type Tool = Command -> Result<string>

  /** The metadata of each id, in order, and the commands run; None: a command failed or its
      output did not decode. */
  function Details(tool: Tool, decode: Decoder, ids: seq<Json>): (Option<seq<Json>>, seq<Command>)
    decreases |ids|
  {
    if ids == [] then (Some([]), [])
    else
      var before := Details(tool, decode, ids[..|ids| - 1]);
      if before.0.None? then before
      else
        var c := Detail(ids[|ids| - 1]);
        var out := tool(c);
        if out.Err? || decode(out.value).None? then (None, before.1 + [c])
        else (Some(before.0.value + [decode(out.value).value]), before.1 + [c])
  }

  /** `fetch_videos_for_channel`: the videos' metadata (empty on any error) and the commands
      run, in order. */
  function FetchVideos(tool: Tool, decode: Decoder, url: string, limit: int): (seq<Json>, seq<Command>)
  {
    var first := tool(ListTab(url, limit));
    var ids := if first.Err? then None else ListingIds(decode, first.value);
    if ids.None? then ([], [ListTab(url, limit)])
    else if ids.value != [] then
      var d := Details(tool, decode, ids.value);
      (if d.0.None? then [] else d.0.value, [ListTab(url, limit)] + d.1)
    else
      var second := tool(ListAll(url, limit));
      var ids' := if second.Err? then None else ListingIds(decode, second.value);
      if ids'.None? || ids'.value == [] then ([], [ListTab(url, limit), ListAll(url, limit)])
      else
        var d := Details(tool, decode, ids'.value);
        (if d.0.None? then [] else d.0.value, [ListTab(url, limit), ListAll(url, limit)] + d.1)
  }

  lemma {:induction false} DetailsFacts(tool: Tool, decode: Decoder, ids: seq<Json>)
    ensures var d := Details(tool, decode, ids);
      && |d.1| <= |ids|
      && (forall k :: 0 <= k < |d.1| ==> d.1[k] == Detail(ids[k]))
      && (d.0.Some? ==> |d.0.value| == |ids| && |d.1| == |ids|)
    decreases |ids|
  {
    if ids != [] {
      DetailsFacts(tool, decode, ids[..|ids| - 1]);
    }
  }

  /** The plain listing runs only when the videos-tab listing ran and found no id; when both
      find none the result is empty; otherwise the metadata of each listed id is fetched, in
      listing order, and either all of them arrive or the result is empty. */
  lemma FetchVideosFacts(tool: Tool, decode: Decoder, url: string, limit: int)
    ensures var f := FetchVideos(tool, decode, url, limit);
      && |f.1| >= 1 && f.1[0] == ListTab(url, limit)
      && (ListAll(url, limit) in f.1 <==>
            tool(ListTab(url, limit)).Ok? && ListingIds(decode, tool(ListTab(url, limit)).value) == Some([]))
      && (ListAll(url, limit) in f.1 ==> f.1[1] == ListAll(url, limit))
      && (var ids := Listed(tool, decode, url, limit);
          && (ids == [] ==> f.0 == [])
          && (f.0 != [] ==> |f.0| == |ids|)
          && (forall k :: 0 <= k < |f.1| && f.1[k].Detail? ==> f.1[k].id in ids))
  {
    var first := tool(ListTab(url, limit));
    var ids := if first.Err? then None else ListingIds(decode, first.value);
    if ids.Some? && ids.value != [] {
      DetailsOnly(tool, decode, ids.value);
      var d := Details(tool, decode, ids.value);
      assert ListAll(url, limit) !in [ListTab(url, limit)] + d.1;
    } else if ids.Some? {
      var second := tool(ListAll(url, limit));
      var ids' := if second.Err? then None else ListingIds(decode, second.value);
      if ids'.Some? && ids'.value != [] {
        DetailsOnly(tool, decode, ids'.value);
      }
    }
  }

  /** The metadata fetch runs only `Detail` commands, each for one of the ids, and returns
      either nothing or one value per id. */
  lemma DetailsOnly(tool: Tool, decode: Decoder, ids: seq<Json>)
    ensures var d := Details(tool, decode, ids);
      && (forall k :: 0 <= k < |d.1| ==> d.1[k].Detail? && d.1[k].id in ids)
      && (d.0.Some? ==> |d.0.value| == |ids|)
  {
    DetailsFacts(tool, decode, ids);
  }

  /** The ids whose metadata is fetched: the first listing's, or the plain listing's when the
      first ran and found none. */
  function Listed(tool: Tool, decode: Decoder, url: string, limit: int): seq<Json>
  {
    var first := tool(ListTab(url, limit));
    var ids := if first.Err? then None else ListingIds(decode, first.value);
    if ids.None? then []
    else if ids.value != [] then ids.value
    else
      var second := tool(ListAll(url, limit));
      var ids' := if second.Err? then None else ListingIds(decode, second.value);
      if ids'.None? then [] else ids'.value
  }

  /** The detail loop. */
  method FetchDetails(tool: Tool, decode: Decoder, ids: seq<Json>) returns (videos: Option<seq<Json>>, commands: seq<Command>)
    ensures (videos, commands) == Details(tool, decode, ids)
  {
    var got: seq<Json> := [];
    commands := [];
    for i := 0 to |ids|
      invariant Details(tool, decode, ids[..i]) == (Some(got), commands)
    {
      assert ids[..i + 1][..i] == ids[..i];
      var c := Detail(ids[i]);
      var out := tool(c);
      commands := commands + [c];
      if out.Err? || decode(out.value).None? {
        DetailsStop(tool, decode, ids, i + 1);
        return None, commands;
      }
      got := got + [decode(out.value).value];
    }
    assert ids[..|ids|] == ids;
    videos := Some(got);
  }

  /** Once a fetch fails, later ids are not tried. */
  lemma {:induction false} DetailsStop(tool: Tool, decode: Decoder, ids: seq<Json>, i: nat)
    requires 0 < i <= |ids| && Details(tool, decode, ids[..i]).0.None?
    ensures Details(tool, decode, ids) == Details(tool, decode, ids[..i])
    decreases |ids|
  {
    if i < |ids| {
      assert ids[..|ids| - 1][..i] == ids[..i];
      DetailsStop(tool, decode, ids[..|ids| - 1], i);
    } else {
      assert ids[..i] == ids;
    }
  }

  method FetchVideosForChannel(tool: Tool, decode: Decoder, url: string, limit: int)
    returns (videos: seq<Json>, commands: seq<Command>)
    ensures (videos, commands) == FetchVideos(tool, decode, url, limit)
  {
    commands := [ListTab(url, limit)];
    var first := tool(ListTab(url, limit));
    if first.Err? {
      return [], commands;
    }
    var ids := ParseListing(decode, first.value);
    if ids.None? {
      return [], commands;
    }
    if ids.value == [] {
      commands := commands + [ListAll(url, limit)];
      assert commands == [ListTab(url, limit), ListAll(url, limit)];
      var second := tool(ListAll(url, limit));
      if second.Err? {
        return [], commands;
      }
      ids := ParseListing(decode, second.value);
      if ids.None? || ids.value == [] {
        return [], commands;
      }
    }
    var got, detail := FetchDetails(tool, decode, ids.value);
    commands := commands + detail;
    videos := if got.None? then [] else got.value;
  }

  // ---------------------------------------------------------------------
  // insert_new_video
  // ---------------------------------------------------------------------

  /** Supabase's rows, the requests sent and the uuids drawn so far. */
  datatype Db = Db(posts: seq<Row>, media: seq<Row>, profiles: seq<Row>, calls: nat, draws: nat)

  /** Whether the k-th request succeeds; the k-th `uuid4().hex[:12]`; the clock, in whole
      seconds and as ISO text; `str()` of a list or dict value. */
  datatype Env = Env(ok: nat -> bool, hex: nat -> string, now: int, nowText: string, repr: Json -> string)

  /** 2025-11-26 00:00:00 UTC, in seconds since the epoch. */
  const Cutoff: int := 1764115200

  /** 0001-01-01 00:00:00 and 9999-12-31 23:59:59 UTC, in seconds since the epoch: the range
      of years a `datetime` can hold. */
  const MinSeconds: int := -62135596800
  const MaxSeconds: int := 253402300799

  /** `datetime.fromtimestamp(x, tz=timezone.utc)` on a JSON value, in whole seconds; None: it
      raises (only numbers are accepted, a bool is a number, and the date must fall in years
      1 to 9999). */
  function Seconds(j: Json): (r: Option<int>)
    ensures r.Some? ==> MinSeconds <= r.value <= MaxSeconds
    ensures j.JInt? && (j.i < MinSeconds || j.i > MaxSeconds) ==> r.None?
    ensures j.JInt? && MinSeconds <= j.i <= MaxSeconds ==> r == Some(j.i)
  {
    match j
    case JInt(i) => if MinSeconds <= i <= MaxSeconds then Some(i) else None
    case JBool(b) => Some(if b then 1 else 0)
    case _ => None
  }

  predicate HasUrn(posts: seq<Row>, urn: Json)
  {
    exists k :: 0 <= k < |posts| && Get(posts[k], "urn") == urn
  }

  /** The `posts` row built for a video. */
  function PostRecord(env: Env, postId: string, id: Json, postedAt: int, channel: Row, video: Row): Row
  {
    map[
      "post_id" := JStr(postId),
      "urn" := id,
      "full_urn" := JStr("youtube:video:" + Str(id, env.repr)),
      "platform" := JStr("youtube"),
      "posted_at_timestamp" := JInt(postedAt),
      "author_username" := Get(channel, "username"),
      "text_content" := JStr(Str(GetOr(video, "title", JStr("")), env.repr) + "\n\n" + Str(GetOr(video, "description", JStr("")), env.repr)),
      "url" := Get(video, "webpage_url"),
      "raw_json" := JObject(video),
      "first_seen_at" := JStr(env.nowText)
    ]
  }

  /** The `post_media` row built for a video; the thumbnail's URL stands in for a local path. */
  function MediaRecord(mediaId: string, postId: string, video: Row): Row
  {
    map[
      "media_id" := JStr(mediaId),
      "post_id" := JStr(postId),
      "media_type" := JStr("video"),
      "media_url" := Get(video, "webpage_url"),
      "local_file_path" := Get(video, "thumbnail"),
      "width" := Get(video, "width"),
      "height" := Get(video, "height")
    ]
  }

  /** `insert_new_video`: Ok(true) when both rows were stored; Err: an exception escaped (the
      metadata is not an object, or its `timestamp` is not a number). */
  function InsertNewVideo(db: Db, env: Env, video: Json, channel: Row): (Db, Result<bool>)
  {
    if !video.JObject? then (db, Err("metadata has no get"))
    else
      var v := video.fields;
      var id := Get(v, "id");
      if !Truthy(id) then (db, Ok(false))
      else
        var looked := db.(calls := db.calls + 1);
        if !env.ok(db.calls) || HasUrn(db.posts, id) then (looked, Ok(false))
        else
          var postId := "p-" + env.hex(looked.draws);
          var drawn := looked.(draws := looked.draws + 1);
          var postedAt := PostedAt(env, v);
          if postedAt.None? then (drawn, Err("fromtimestamp rejects the timestamp"))
          else if postedAt.value < Cutoff then (drawn, Ok(false))
          else
            var post := PostRecord(env, postId, id, postedAt.value, channel, v);
            var media := MediaRecord("pm-" + env.hex(drawn.draws), postId, v);
            var ready := drawn.(draws := drawn.draws + 1);
            if !env.ok(ready.calls) then (ready.(calls := ready.calls + 1), Ok(false))
            else
              var posted := ready.(posts := ready.posts + [post], calls := ready.calls + 1);
              if !env.ok(posted.calls) then (posted.(calls := posted.calls + 1), Ok(false))
              else (posted.(media := posted.media + [media], calls := posted.calls + 1), Ok(true))
  }

  /** No two posts share a `urn`. */
  ghost predicate UrnsUnique(posts: seq<Row>)
  {
    forall i, j :: 0 <= i < j < |posts| ==> Get(posts[i], "urn") != Get(posts[j], "urn")
  }

  /** The path `insert_new_video` takes to an insert: the video's id, and the timestamp and
      the state just before the two insert requests. */
  predicate ReachesInsert(db: Db, env: Env, video: Json)
  {
    && video.JObject?
    && Truthy(Get(video.fields, "id"))
    && env.ok(db.calls)
    && !HasUrn(db.posts, Get(video.fields, "id"))
    && PostedAt(env, video.fields).Some?
    && PostedAt(env, video.fields).value >= Cutoff
  }

  /** The posting time `insert_new_video` reads: `timestamp`, or now when it is missing. */
  function PostedAt(env: Env, v: Row): Option<int>
  {
    if "timestamp" in v then Seconds(v["timestamp"]) else Some(env.now)
  }

  /** The rows built for a video carry its id, the YouTube full urn and platform, the posting
      time, and one shared `post_id`. */
  lemma RecordFields(env: Env, postId: string, mediaId: string, id: Json, postedAt: int, channel: Row, video: Row)
    ensures var p := PostRecord(env, postId, id, postedAt, channel, video);
      && p["post_id"] == JStr(postId)
      && p["urn"] == id
      && p["full_urn"] == JStr("youtube:video:" + Str(id, env.repr))
      && p["platform"] == JStr("youtube")
      && p["posted_at_timestamp"] == JInt(postedAt)
    ensures var m := MediaRecord(mediaId, postId, video);
      m["post_id"] == JStr(postId) && m["media_type"] == JStr("video")
  {
    PostIdentity(env, postId, id, postedAt, channel, video);
    PostOrigin(env, postId, id, postedAt, channel, video);
    MediaLink(mediaId, postId, video);
  }

  lemma PostIdentity(env: Env, postId: string, id: Json, postedAt: int, channel: Row, video: Row)
    ensures var p := PostRecord(env, postId, id, postedAt, channel, video);
      p["post_id"] == JStr(postId) && p["urn"] == id
  {
  }

  lemma PostOrigin(env: Env, postId: string, id: Json, postedAt: int, channel: Row, video: Row)
    ensures var p := PostRecord(env, postId, id, postedAt, channel, video);
      && p["full_urn"] == JStr("youtube:video:" + Str(id, env.repr))
      && p["platform"] == JStr("youtube")
      && p["posted_at_timestamp"] == JInt(postedAt)
  {
  }

  lemma MediaLink(mediaId: string, postId: string, video: Row)
    ensures var m := MediaRecord(mediaId, postId, video);
      m["post_id"] == JStr(postId) && m["media_type"] == JStr("video")
  {
  }

  /** The path to an insert: both rows are built, the post row is appended when its request
      succeeds, and the media row, after it, exactly when the result is true. */
  lemma InsertPath(db: Db, env: Env, video: Json, channel: Row) returns (post: Row, media: Row)
    requires ReachesInsert(db, env, video)
    ensures var v := video.fields;
      && post == PostRecord(env, "p-" + env.hex(db.draws), Get(v, "id"), PostedAt(env, v).value, channel, v)
      && media == MediaRecord("pm-" + env.hex(db.draws + 1), "p-" + env.hex(db.draws), v)
    ensures var r := InsertNewVideo(db, env, video, channel);
      && r.0.profiles == db.profiles && r.1.Ok?
      && (r.0.posts == db.posts || r.0.posts == db.posts + [post])
      && (r.1 == Ok(true) ==> r.0.posts == db.posts + [post] && r.0.media == db.media + [media])
      && (r.1 != Ok(true) ==> r.0.media == db.media)
  {
    var v := video.fields;
    post := PostRecord(env, "p-" + env.hex(db.draws), Get(v, "id"), PostedAt(env, v).value, channel, v);
    media := MediaRecord("pm-" + env.hex(db.draws + 1), "p-" + env.hex(db.draws), v);
  }

  /** Off the path to an insert nothing is stored and the result is not true. */
  lemma NoInsertPath(db: Db, env: Env, video: Json, channel: Row)
    requires !ReachesInsert(db, env, video)
    ensures var r := InsertNewVideo(db, env, video, channel);
      && r.0.profiles == db.profiles && r.0.posts == db.posts && r.0.media == db.media
      && r.1 != Ok(true)
  {
  }

  /** No id, a urn already stored, a lookup that fails, a timestamp before the cutoff: no
      insert; metadata that is not an object raises before any request. */
  lemma InsertNewVideoSkips(db: Db, env: Env, video: Json, channel: Row)
    ensures var r := InsertNewVideo(db, env, video, channel);
      && (!video.JObject? ==> r == (db, Err("metadata has no get")))
      && (video.JObject? && !Truthy(Get(video.fields, "id")) ==> r == (db, Ok(false)))
      && (video.JObject? && Truthy(Get(video.fields, "id")) &&
          (!env.ok(db.calls) || HasUrn(db.posts, Get(video.fields, "id"))) ==>
            r.1 == Ok(false) && r.0.posts == db.posts && r.0.media == db.media)
      && (video.JObject? && PostedAt(env, video.fields).Some? && PostedAt(env, video.fields).value < Cutoff ==>
            r.1 == Ok(false) && r.0.posts == db.posts && r.0.media == db.media)
      && (video.JObject? && Truthy(Get(video.fields, "id")) && env.ok(db.calls)
          && !HasUrn(db.posts, Get(video.fields, "id"))
          && "timestamp" in video.fields && video.fields["timestamp"].JInt?
          && (video.fields["timestamp"].i < MinSeconds || video.fields["timestamp"].i > MaxSeconds) ==>
            r.1.Err? && r.0.posts == db.posts && r.0.media == db.media)
  {
  }

  /** What one call can change: profiles never; posts and media only by one row appended;
      a media row exactly when the result is true, and a post only on the way to an insert. */
  lemma InsertNewVideoFrame(db: Db, env: Env, video: Json, channel: Row)
    ensures var r := InsertNewVideo(db, env, video, channel);
      && r.0.profiles == db.profiles
      && db.posts <= r.0.posts && |r.0.posts| <= |db.posts| + 1
      && db.media <= r.0.media && |r.0.media| <= |db.media| + 1
      && (|r.0.media| == |db.media| + 1 <==> r.1 == Ok(true))
      && (|r.0.posts| == |db.posts| + 1 ==>
            ReachesInsert(db, env, video) && r.1.Ok? &&
            Get(r.0.posts[|db.posts|], "urn") == Get(video.fields, "id"))
      && (r.1 == Ok(true) ==> ReachesInsert(db, env, video) && |r.0.posts| == |db.posts| + 1)
  {
    var r := InsertNewVideo(db, env, video, channel);
    if ReachesInsert(db, env, video) {
      var v := video.fields;
      var post, media := InsertPath(db, env, video, channel);
      PostIdentity(env, "p-" + env.hex(db.draws), Get(v, "id"), PostedAt(env, v).value, channel, v);
      assert db.posts <= db.posts + [post] && db.media <= db.media + [media];
      assert (db.posts + [post])[|db.posts|] == post;
    } else {
      NoInsertPath(db, env, video, channel);
    }
  }

  /** A true result: exactly one post and one media row were added, linked by `post_id`, with
      the urn, full urn and platform of a YouTube video posted on or after the cutoff. */
  lemma InsertNewVideoRecords(db: Db, env: Env, video: Json, channel: Row)
    requires InsertNewVideo(db, env, video, channel).1 == Ok(true)
    ensures var r := InsertNewVideo(db, env, video, channel);
      var v := video.fields;
      && |r.0.posts| == |db.posts| + 1 && |r.0.media| == |db.media| + 1
      && var post := r.0.posts[|db.posts|];
      && var media := r.0.media[|db.media|];
      && !HasUrn(db.posts, Get(v, "id"))
      && post["urn"] == Get(v, "id")
      && post["full_urn"] == JStr("youtube:video:" + Str(Get(v, "id"), env.repr))
      && post["platform"] == JStr("youtube")
      && post["posted_at_timestamp"].JInt? && post["posted_at_timestamp"].i >= Cutoff
      && media["post_id"] == post["post_id"]
      && media["media_type"] == JStr("video")
  {
    InsertNewVideoFrame(db, env, video, channel);
    var v := video.fields;
    var postId := "p-" + env.hex(db.draws);
    var post, media := InsertPath(db, env, video, channel);
    RecordFields(env, postId, "pm-" + env.hex(db.draws + 1), Get(v, "id"), PostedAt(env, v).value, channel, v);
    assert (db.posts + [post])[|db.posts|] == post && (db.media + [media])[|db.media|] == media;
  }

  /** Lookup before insert: a sequence of calls never stores a urn twice. */
  lemma InsertNewVideoKeepsUrnsUnique(db: Db, env: Env, video: Json, channel: Row)
    requires UrnsUnique(db.posts)
    ensures UrnsUnique(InsertNewVideo(db, env, video, channel).0.posts)
  {
    var r := InsertNewVideo(db, env, video, channel);
    InsertNewVideoFrame(db, env, video, channel);
    if |r.0.posts| == |db.posts| + 1 {
      var id := Get(video.fields, "id");
      forall i, j | 0 <= i < j < |r.0.posts| ensures Get(r.0.posts[i], "urn") != Get(r.0.posts[j], "urn")
      {
        if j == |db.posts| {
          assert Get(db.posts[i], "urn") != id;
        }
      }
    } else {
      assert r.0.posts == db.posts;
    }
  }

  /** A video that was just inserted is recognised as existing afterwards: inserting it again
      stores nothing. */
  lemma InsertNewVideoOnce(db: Db, env: Env, video: Json, channel: Row)
    requires InsertNewVideo(db, env, video, channel).1 == Ok(true)
    ensures var db' := InsertNewVideo(db, env, video, channel).0;
      InsertNewVideo(db', env, video, channel).1 == Ok(false) &&
      InsertNewVideo(db', env, video, channel).0.posts == db'.posts &&
      InsertNewVideo(db', env, video, channel).0.media == db'.media
  {
    var db' := InsertNewVideo(db, env, video, channel).0;
    assert Get(db'.posts[|db.posts|], "urn") == Get(video.fields, "id");
    assert HasUrn(db'.posts, Get(video.fields, "id"));
  }

  // ---------------------------------------------------------------------
  // main
  // ---------------------------------------------------------------------

  predicate ActiveYoutube(p: Row)
  {
    Get(p, "platform") == JStr("youtube") && Get(p, "is_active") == JBool(true)
  }

  function Filter(ps: seq<Row>): (r: seq<Row>)
    ensures forall k :: 0 <= k < |r| ==> ActiveYoutube(r[k])
    decreases |ps|
  {
    if ps == [] then []
    else Filter(ps[..|ps| - 1]) + if ActiveYoutube(ps[|ps| - 1]) then [ps[|ps| - 1]] else []
  }

  /** `get_active_youtube_channels`: one request; a failure reads as no channels. */
  function ActiveChannels(db: Db, env: Env): (Db, seq<Row>)
  {
    (db.(calls := db.calls + 1), if env.ok(db.calls) then Filter(db.profiles) else [])
  }

  function ChannelUrl(env: Env, channel: Row): string
  {
    "https://www.youtube.com/" + Str(Get(channel, "username"), env.repr)
  }

  /** The videos of one channel offered for insertion; the count of those inserted. */
  function InsertVideos(db: Db, env: Env, videos: seq<Json>, channel: Row): (Db, Result<nat>)
    decreases |videos|
  {
    if videos == [] then (db, Ok(0))
    else
      var before := InsertVideos(db, env, videos[..|videos| - 1], channel);
      if before.1.Err? then before
      else
        var r := InsertNewVideo(before.0, env, videos[|videos| - 1], channel);
        if r.1.Err? then (r.0, Err(r.1.error))
        else (r.0, Ok(before.1.value + if r.1.value then 1 else 0))
  }

  /** One channel: its videos fetched with yt-dlp and offered one by one. */
  function ProcessChannel(db: Db, env: Env, tool: Tool, decode: Decoder, limit: int, channel: Row): (Db, Result<nat>)
  {
    var videos := FetchVideos(tool, decode, ChannelUrl(env, channel), limit).0;
    if videos == [] then (db, Ok(0)) else InsertVideos(db, env, videos, channel)
  }

  /** The channel loop: `new_videos_total` so far and each channel's count. */
  function ProcessChannels(db: Db, env: Env, tool: Tool, decode: Decoder, limit: int, channels: seq<Row>)
    : (Db, Result<(nat, seq<nat>)>)
    decreases |channels|
  {
    if channels == [] then (db, Ok((0, [])))
    else
      var before := ProcessChannels(db, env, tool, decode, limit, channels[..|channels| - 1]);
      if before.1.Err? then before
      else
        Tally(before.1.value, ProcessChannel(before.0, env, tool, decode, limit, channels[|channels| - 1]))
  }

  /** Adding one channel's outcome: its count joins the list, and the total when positive. */
  function Tally(acc: (nat, seq<nat>), r: (Db, Result<nat>)): (Db, Result<(nat, seq<nat>)>)
  {
    if r.1.Err? then (r.0, Err(r.1.error))
    else
      var total: nat := if r.1.value > 0 then acc.0 + r.1.value else acc.0;
      (r.0, Ok((total, acc.1 + [r.1.value])))
  }

  /** `main`: no client or no channel ends it early; an exception from `insert_new_video`
      escapes it. The total and the per-channel counts. */
  function Main(clientOk: bool, db: Db, env: Env, tool: Tool, decode: Decoder, limit: int): (Db, Result<(nat, seq<nat>)>)
  {
    if !clientOk then (db, Ok((0, [])))
    else
      var found := ActiveChannels(db, env);
      if found.1 == [] then (found.0, Ok((0, [])))
      else ProcessChannels(found.0, env, tool, decode, limit, found.1)
  }

  function Sum(xs: seq<nat>): nat
  {
    if xs == [] then 0 else Sum(xs[..|xs| - 1]) + xs[|xs| - 1]
  }

  /** What one channel's insert loop leaves: the count is the number of media rows added,
      posts and media only grow, and profiles are untouched. */
  ghost predicate Counted(db: Db, db': Db, n: nat)
  {
    && db'.profiles == db.profiles
    && db.posts <= db'.posts && db.media <= db'.media
    && |db'.media| == |db.media| + n
    && (UrnsUnique(db.posts) ==> UrnsUnique(db'.posts))
  }

  lemma {:induction false} InsertVideosFacts(db: Db, env: Env, videos: seq<Json>, channel: Row)
    ensures var r := InsertVideos(db, env, videos, channel);
      && r.0.profiles == db.profiles && db.posts <= r.0.posts && db.media <= r.0.media
      && (UrnsUnique(db.posts) ==> UrnsUnique(r.0.posts))
      && (r.1.Ok? ==> r.1.value <= |videos| && Counted(db, r.0, r.1.value))
    decreases |videos|
  {
    if videos != [] {
      var before := InsertVideos(db, env, videos[..|videos| - 1], channel);
      InsertVideosFacts(db, env, videos[..|videos| - 1], channel);
      if before.1.Ok? {
        InsertNewVideoFrame(before.0, env, videos[|videos| - 1], channel);
        if UrnsUnique(before.0.posts) {
          InsertNewVideoKeepsUrnsUnique(before.0, env, videos[|videos| - 1], channel);
        }
      }
    }
  }

  lemma {:induction false} ProcessChannelsFacts(db: Db, env: Env, tool: Tool, decode: Decoder, limit: int, channels: seq<Row>)
    ensures var r := ProcessChannels(db, env, tool, decode, limit, channels);
      && r.0.profiles == db.profiles && db.posts <= r.0.posts && db.media <= r.0.media
      && (UrnsUnique(db.posts) ==> UrnsUnique(r.0.posts))
      && (r.1.Ok? ==>
            && |r.1.value.1| == |channels|
            && r.1.value.0 == Sum(r.1.value.1)
            && |r.0.media| == |db.media| + r.1.value.0)
    decreases |channels|
  {
    if channels != [] {
      var before := ProcessChannels(db, env, tool, decode, limit, channels[..|channels| - 1]);
      ProcessChannelsFacts(db, env, tool, decode, limit, channels[..|channels| - 1]);
      if before.1.Ok? {
        var channel := channels[|channels| - 1];
        var videos := FetchVideos(tool, decode, ChannelUrl(env, channel), limit).0;
        if videos != [] {
          InsertVideosFacts(before.0, env, videos, channel);
        }
        var r := ProcessChannels(db, env, tool, decode, limit, channels);
        if r.1.Ok? {
          var counts := before.1.value.1 + [r.1.value.1[|channels| - 1]];
          assert r.1.value.1 == counts;
          assert counts[..|counts| - 1] == before.1.value.1;
        }
      }
    }
  }

  /** `new_videos_total` is the sum of the per-channel counts, there is one count per active
      YouTube channel, and the total equals the number of media rows added — one per video
      inserted; no profile changes and no urn is stored twice. */
  lemma MainFacts(clientOk: bool, db: Db, env: Env, tool: Tool, decode: Decoder, limit: int)
    ensures var r := Main(clientOk, db, env, tool, decode, limit);
      && r.0.profiles == db.profiles && db.posts <= r.0.posts && db.media <= r.0.media
      && (UrnsUnique(db.posts) ==> UrnsUnique(r.0.posts))
      && (!clientOk ==> r == (db, Ok((0, []))))
      && (r.1.Ok? ==>
            && r.1.value.0 == Sum(r.1.value.1)
            && |r.0.media| == |db.media| + r.1.value.0
            && (clientOk && env.ok(db.calls) ==> |r.1.value.1| == |Filter(db.profiles)|))
  {
    if clientOk {
      var found := ActiveChannels(db, env);
      if found.1 != [] {
        ProcessChannelsFacts(found.0, env, tool, decode, limit, found.1);
      }
    }
  }

  /** The per-channel insert loop. */
  method InsertChannelVideos(db0: Db, env: Env, videos: seq<Json>, channel: Row) returns (db: Db, count: Result<nat>)
    ensures (db, count) == InsertVideos(db0, env, videos, channel)
  {
    db := db0;
    var n: nat := 0;
    for i := 0 to |videos|
      invariant InsertVideos(db0, env, videos[..i], channel) == (db, Ok(n))
    {
      var r;
      db, r := OfferVideo(db0, env, videos, channel, i, db, n);
      if r.Err? {
        InsertVideosStop(db0, env, videos, channel, i + 1);
        return db, r;
      }
      n := r.value;
    }
    assert videos[..|videos|] == videos;
    count := Ok(n);
  }

  /** The body of the insert loop: offer video `i`, and count it when it was stored. */
  method OfferVideo(ghost db0: Db, env: Env, videos: seq<Json>, channel: Row, i: nat, db: Db, n: nat)
    returns (db': Db, r: Result<nat>)
    requires i < |videos| && InsertVideos(db0, env, videos[..i], channel) == (db, Ok(n))
    ensures InsertVideos(db0, env, videos[..i + 1], channel) == (db', r)
  {
    InsertVideosStepAt(db0, env, videos, channel, i);
    var one := InsertNewVideo(db, env, videos[i], channel);
    db' := one.0;
    if one.1.Err? {
      r := Err(one.1.error);
    } else {
      r := Ok(if one.1.value then n + 1 else n);
    }
  }

  /** Video `i` after the videos before it, which raised nothing. */
  lemma InsertVideosStepAt(db: Db, env: Env, videos: seq<Json>, channel: Row, i: nat)
    requires i < |videos| && InsertVideos(db, env, videos[..i], channel).1.Ok?
    ensures var before := InsertVideos(db, env, videos[..i], channel);
      var r := InsertNewVideo(before.0, env, videos[i], channel);
      InsertVideos(db, env, videos[..i + 1], channel)
        == if r.1.Err? then (r.0, Err(r.1.error)) else (r.0, Ok(before.1.value + if r.1.value then 1 else 0))
  {
    assert videos[..i + 1][..i] == videos[..i];
  }

  lemma {:induction false} InsertVideosStop(db: Db, env: Env, videos: seq<Json>, channel: Row, i: nat)
    requires 0 < i <= |videos| && InsertVideos(db, env, videos[..i], channel).1.Err?
    ensures InsertVideos(db, env, videos, channel) == InsertVideos(db, env, videos[..i], channel)
    decreases |videos|
  {
    if i < |videos| {
      assert videos[..|videos| - 1][..i] == videos[..i];
      InsertVideosStop(db, env, videos[..|videos| - 1], channel, i);
    } else {
      assert videos[..i] == videos;
    }
  }

  lemma {:induction false} ChannelsStop(db: Db, env: Env, tool: Tool, decode: Decoder, limit: int, channels: seq<Row>, i: nat)
    requires 0 < i <= |channels| && ProcessChannels(db, env, tool, decode, limit, channels[..i]).1.Err?
    ensures ProcessChannels(db, env, tool, decode, limit, channels) == ProcessChannels(db, env, tool, decode, limit, channels[..i])
    decreases |channels|
  {
    if i < |channels| {
      assert channels[..|channels| - 1][..i] == channels[..i];
      ChannelsStop(db, env, tool, decode, limit, channels[..|channels| - 1], i);
    } else {
      assert channels[..i] == channels;
    }
  }

  /** One more channel after a run of channels that raised nothing. */
  lemma ChannelsStep(db: Db, env: Env, tool: Tool, decode: Decoder, limit: int, channels: seq<Row>, channel: Row)
    requires ProcessChannels(db, env, tool, decode, limit, channels).1.Ok?
    ensures var before := ProcessChannels(db, env, tool, decode, limit, channels);
      ProcessChannels(db, env, tool, decode, limit, channels + [channel])
        == Tally(before.1.value, ProcessChannel(before.0, env, tool, decode, limit, channel))
  {
    assert (channels + [channel])[..|channels|] == channels;
  }

  /** Channel `i` after the channels before it, which raised nothing. */
  lemma ChannelsStepAt(db: Db, env: Env, tool: Tool, decode: Decoder, limit: int, channels: seq<Row>, i: nat)
    requires i < |channels| && ProcessChannels(db, env, tool, decode, limit, channels[..i]).1.Ok?
    ensures var before := ProcessChannels(db, env, tool, decode, limit, channels[..i]);
      ProcessChannels(db, env, tool, decode, limit, channels[..i + 1])
        == Tally(before.1.value, ProcessChannel(before.0, env, tool, decode, limit, channels[i]))
  {
    assert channels[..i + 1] == channels[..i] + [channels[i]];
    ChannelsStep(db, env, tool, decode, limit, channels[..i], channels[i]);
  }

  /** The counters after one more channel, as `Tally` adds them. */
  method TallyCount(db: Db, total: nat, counts: seq<nat>, count: nat) returns (total': nat, counts': seq<nat>)
    ensures Tally((total, counts), (db, Ok(count))) == (db, Ok((total', counts')))
  {
    total' := if count > 0 then total + count else total;
    counts' := counts + [count];
  }

  /** The body of the channel loop. */
  method ProcessOneChannel(db0: Db, env: Env, tool: Tool, decode: Decoder, limit: int, channel: Row)
    returns (db: Db, count: Result<nat>)
    ensures (db, count) == ProcessChannel(db0, env, tool, decode, limit, channel)
  {
    var videos, _ := FetchVideosForChannel(tool, decode, ChannelUrl(env, channel), limit);
    if videos == [] {
      return db0, Ok(0);
    }
    db, count := InsertChannelVideos(db0, env, videos, channel);
  }

  /** `main`, with the argument and the client's creation as parameters. */
  method YoutubeFetcherMain(clientOk: bool, db0: Db, env: Env, tool: Tool, decode: Decoder, limit: int)
    returns (db: Db, result: Result<(nat, seq<nat>)>)
    ensures (db, result) == Main(clientOk, db0, env, tool, decode, limit)
  {
    if !clientOk {
      return db0, Ok((0, []));
    }
    var found := ActiveChannels(db0, env);
    db := found.0;
    var channels := found.1;
    if channels == [] {
      return db, Ok((0, []));
    }
    db, result := ProcessAllChannels(db, env, tool, decode, limit, channels);
  }

  /** The loop of `main` over the active channels. */
  method ProcessAllChannels(start: Db, env: Env, tool: Tool, decode: Decoder, limit: int, channels: seq<Row>)
    returns (db: Db, result: Result<(nat, seq<nat>)>)
    ensures (db, result) == ProcessChannels(start, env, tool, decode, limit, channels)
  {
    db := start;
    var total: nat := 0;
    var counts: seq<nat> := [];
    for i := 0 to |channels|
      invariant ProcessChannels(start, env, tool, decode, limit, channels[..i]) == (db, Ok((total, counts)))
    {
      ChannelsStepAt(start, env, tool, decode, limit, channels, i);
      var count: Result<nat>;
      db, count := ProcessOneChannel(db, env, tool, decode, limit, channels[i]);
      if count.Err? {
        ChannelsStop(start, env, tool, decode, limit, channels, i + 1);
        return db, Err(count.error);
      }
      total, counts := TallyCount(db, total, counts, count.value);
    }
    assert channels[..|channels|] == channels;
    result := Ok((total, counts));
  }
}
