/**
 * Refreshing likes and comments of Substack articles (substack_analytics_fetcher.py).
 *
 * The Substack API is two oracles: the recent articles of a newsletter, by username, and the
 * metadata of an article, by URL; either may raise. Supabase is the `download_runs` store of
 * manage_data.py together with the Substack `posts` rows and the `v_profiles_with_stats` view;
 * every request to it goes through the same numbered oracle. Date parsing, the clock and the
 * text of a list or dict value are parameters as well.
 */
module SubstackAnalyticsFetcher {
  import opened Common
  import ManageData
  import ProfileManager

  type Row = map<string, Json>

  /** An article as `get_posts` lists it: its URL and its `slug` attribute, if any. */
  datatype Article = Article(url: string, slug: Option<string>)

  /** Supabase: the run store, the `posts` rows this script reads and writes, and the view
      the profiles are read from. */
  datatype Db = Db(store: ManageData.Db, posts: seq<Row>, view: seq<ProfileManager.Profile>)

  /** Whether the k-th request succeeds; the newsletters' article lists; the articles'
      metadata; `dateutil` on a `post_date` value (None: it raises); the clock; `str()` of a
      list or dict value. */
  datatype Env = Env(
    ok: ManageData.Net,
    newsletter: string -> Result<seq<Article>>,
    metadata: string -> Result<Row>,
    parseDate: Json -> Option<int>,
    now: int,
    nowText: string,
    repr: Json -> string)

  /** One request to Supabase: whether it succeeded, and the state with the request counted. */
  function Request(db: Db, env: Env): (Db, bool)
  {
    (db.(store := db.store.(calls := db.store.calls + 1)), env.ok(db.store.calls))
  }

  // ---------------------------------------------------------------------
  // Slug and URN
  // ---------------------------------------------------------------------

  /** The slug attribute when it is truthy, else the last `/`-segment of the URL with its
      trailing slashes removed. */
  function Slug(a: Article): string
  {
    if a.slug.Some? && a.slug.value != "" then a.slug.value
    else AfterLast(RStripChar(a.url, '/'), '/')
  }

  function Urn(username: string, slug: string): string
  {
    "substack:" + username + ":" + slug
  }

  /** Without a slug attribute, the slug is the URL's last non-empty path segment: it holds
      no `/`, the URL ends with it followed only by slashes, and it is preceded by a `/`
      unless it is the whole stripped URL. */
  lemma SlugFacts(a: Article)
    ensures a.slug.Some? && a.slug.value != "" ==> Slug(a) == a.slug.value
    ensures (a.slug.None? || a.slug.value == "") ==>
      var base := RStripChar(a.url, '/');
      && '/' !in Slug(a)
      && StartsWith(a.url, base)
      && EndsWith(base, Slug(a))
      && (Slug(a) == base || base[|base| - |Slug(a)| - 1] == '/')
      && (forall k :: |base| <= k < |a.url| ==> a.url[k] == '/')
  {
  }

  /** The URN names its parts: it starts with `substack:` and the username, and a slug
      without a colon is what follows the last colon. */
  lemma UrnParts(username: string, slug: string)
    ensures StartsWith(Urn(username, slug), "substack:" + username + ":")
    ensures ':' !in slug ==> AfterLast(Urn(username, slug), ':') == slug
  {
    var u := Urn(username, slug);
    var p := "substack:" + username + ":";
    assert u == p + slug;
    assert u[..|p|] == p;
    if ':' !in slug {
      AfterLastOfSuffix(p, slug, ':');
    }
  }

  // ---------------------------------------------------------------------
  // One article
  // ---------------------------------------------------------------------

  /** `metadata.get('reactions', {}).get('❤', 0)`; None: `reactions` is not a dict. */
  function Likes(m: Row): Option<Json>
  {
    if "reactions" !in m then Some(JInt(0))
    else if m["reactions"].JObject? then Some(GetOr(m["reactions"].fields, "❤", JInt(0)))
    else None
  }

  function Comments(m: Row): Json
  {
    GetOr(m, "comment_count", JInt(0))
  }

  /** The text of a new post: title and description, or the description alone when the title
      is falsy; the description falls back to the subtitle. */
  function TextContent(m: Row, repr: Json -> string): Json
  {
    var description := Or(GetOr(m, "description", JStr("")), GetOr(m, "subtitle", JStr("")));
    var title := GetOr(m, "title", JStr(""));
    if Truthy(title) then JStr(Str(title, repr) + "\n\n" + Str(description, repr)) else description
  }

  /** Missing counts read as 0, and the text has the title only when there is a truthy one. */
  lemma ArticleFieldDefaults(m: Row, repr: Json -> string)
    ensures "reactions" !in m ==> Likes(m) == Some(JInt(0))
    ensures "reactions" in m && m["reactions"].JObject? && "❤" !in m["reactions"].fields ==> Likes(m) == Some(JInt(0))
    ensures "comment_count" !in m ==> Comments(m) == JInt(0)
    ensures !Truthy(GetOr(m, "title", JStr(""))) ==>
      TextContent(m, repr) == Or(GetOr(m, "description", JStr("")), GetOr(m, "subtitle", JStr("")))
    ensures ("title" in m && m["title"].JStr? && m["title"].s != "" &&
             "description" in m && m["description"].JStr? && m["description"].s != "") ==>
      TextContent(m, repr) == JStr(m["title"].s + "\n\n" + m["description"].s)
  {
  }

  predicate HasUrn(posts: seq<Row>, urn: string)
  {
    exists k :: 0 <= k < |posts| && Get(posts[k], "urn") == JStr(urn)
  }

  /** The update of every row with this URN. */
  function UpdateRows(posts: seq<Row>, urn: string, likes: Json, comments: Json, nowText: string): (r: seq<Row>)
    ensures |r| == |posts|
  {
    seq(|posts|, k requires 0 <= k < |posts| =>
      if Get(posts[k], "urn") == JStr(urn)
      then posts[k]["likes_count" := likes]["comments_count" := comments]["updated_at" := JStr(nowText)]
      else posts[k])
  }

  /** The row a missing article is backfilled with. */
  function NewPost(env: Env, postId: nat, urn: string, postedAt: int, username: string, a: Article, m: Row, likes: Json): Row
  {
    map[
      "post_id" := JInt(postId),
      "urn" := JStr(urn),
      "platform" := JStr("substack"),
      "posted_at_timestamp" := JInt(postedAt),
      "author_username" := JStr(username),
      "text_content" := TextContent(m, env.repr),
      "post_type" := JStr("article"),
      "url" := JStr(a.url),
      "likes_count" := likes,
      "comments_count" := Comments(m),
      "is_read" := JBool(false),
      "is_marked" := JBool(false),
      "created_at" := JStr(env.nowText),
      "updated_at" := JStr(env.nowText)
    ]
  }

  /** What became of one article. `Failed`: an exception inside the per-article handler. */
  datatype Outcome = Updated | Created | Failed

  /** The posting time of a new post: the parsed `post_date` when truthy, else now. */
  function PostedAt(env: Env, m: Row): Option<int>
  {
    var date := Get(m, "post_date");
    if Truthy(date) then env.parseDate(date) else Some(env.now)
  }

  /** The body of the per-article handler. */
  function ProcessArticle(db: Db, env: Env, username: string, a: Article): (Db, Outcome)
  {
    var urn := Urn(username, Slug(a));
    var meta := env.metadata(a.url);
    if meta.Err? || Likes(meta.value).None? then (db, Failed)
    else
      var m := meta.value;
      var likes := Likes(m).value;
      var lookup := Request(db, env);
      if !lookup.1 then (lookup.0, Failed)
      else if HasUrn(db.posts, urn) then
        var update := Request(lookup.0, env);
        if !update.1 then (update.0, Failed)
        else (update.0.(posts := UpdateRows(db.posts, urn, likes, Comments(m), env.nowText)), Updated)
      else
        var postedAt := PostedAt(env, m);
        if postedAt.None? then (lookup.0, Failed)
        else
          var (postId, store) := ManageData.NewId(lookup.0.store);
          var insert := Request(lookup.0.(store := store), env);
          if !insert.1 then (insert.0, Failed)
          else (insert.0.(posts := db.posts + [NewPost(env, postId, urn, postedAt.value, username, a, m, likes)]), Created)
  }

  /** The run rows and the profiles are never touched, and a failed article changes no post. */
  lemma ProcessArticleFrame(db: Db, env: Env, username: string, a: Article)
    ensures var r := ProcessArticle(db, env, username, a);
      && r.0.store.runs == db.store.runs
      && r.0.view == db.view
      && (r.1 == Failed ==> r.0.posts == db.posts)
  {
  }

  /** A URN already stored is updated whenever the metadata, the lookup and the update
      succeed; an update happens only for a stored URN, has the likes and comments of every row
      with it refreshed, and touches nothing else. */
  lemma ProcessArticleUpdates(db: Db, env: Env, username: string, a: Article)
    ensures var r := ProcessArticle(db, env, username, a);
      var urn := Urn(username, Slug(a));
      var meta := env.metadata(a.url);
      (meta.Ok? && Likes(meta.value).Some? && env.ok(db.store.calls) && HasUrn(db.posts, urn)
       && env.ok(db.store.calls + 1)) ==> r.1 == Updated
    ensures var r := ProcessArticle(db, env, username, a);
      var urn := Urn(username, Slug(a));
      r.1 == Updated ==>
        && HasUrn(db.posts, urn)
        && |r.0.posts| == |db.posts|
        && (forall k :: 0 <= k < |db.posts| && Get(db.posts[k], "urn") != JStr(urn) ==> r.0.posts[k] == db.posts[k])
        && (forall k :: 0 <= k < |db.posts| && Get(db.posts[k], "urn") == JStr(urn) ==>
              && r.0.posts[k]["likes_count"] == Likes(env.metadata(a.url).value).value
              && r.0.posts[k]["comments_count"] == Comments(env.metadata(a.url).value)
              && r.0.posts[k].Keys == db.posts[k].Keys + {"likes_count", "comments_count", "updated_at"})
  {
  }

  /** A new URN is inserted whenever the metadata, the lookup, the posting date and the insert
      succeed; a creation happens only for a new URN and gives it exactly one row, a Substack
      article with that URN, URL, author, counts and text; the rows before it are kept. */
  lemma ProcessArticleCreates(db: Db, env: Env, username: string, a: Article)
    ensures var r := ProcessArticle(db, env, username, a);
      var urn := Urn(username, Slug(a));
      var meta := env.metadata(a.url);
      (meta.Ok? && Likes(meta.value).Some? && env.ok(db.store.calls) && !HasUrn(db.posts, urn)
       && PostedAt(env, meta.value).Some? && env.ok(db.store.calls + 1)) ==> r.1 == Created
    ensures var r := ProcessArticle(db, env, username, a);
      var urn := Urn(username, Slug(a));
      r.1 == Created ==>
        && !HasUrn(db.posts, urn)
        && |r.0.posts| == |db.posts| + 1
        && r.0.posts[..|db.posts|] == db.posts
        && var p := r.0.posts[|db.posts|];
        && p["urn"] == JStr(urn) && p["platform"] == JStr("substack") && p["post_type"] == JStr("article")
        && p["url"] == JStr(a.url) && p["author_username"] == JStr(username)
        && p["likes_count"] == Likes(env.metadata(a.url).value).value
        && p["comments_count"] == Comments(env.metadata(a.url).value)
        && p["text_content"] == TextContent(env.metadata(a.url).value, env.repr)
        && HasUrn(r.0.posts, urn)
  {
    var r := ProcessArticle(db, env, username, a);
    if r.1 == Created {
      var urn := Urn(username, Slug(a));
      var m := env.metadata(a.url).value;
      var postId, postedAt := CreatedRow(db, env, username, a);
      var p := NewPost(env, postId, urn, postedAt, username, a, m, Likes(m).value);
      NewPostUrn(env, postId, urn, postedAt, username, a, m, Likes(m).value);
      NewPostKind(env, postId, urn, postedAt, username, a, m, Likes(m).value);
      NewPostSource(env, postId, urn, postedAt, username, a, m, Likes(m).value);
      NewPostCounts(env, postId, urn, postedAt, username, a, m, Likes(m).value);
      AppendedRow(db.posts, p, urn);
    }
  }

  /** Appending a row with a URN keeps the earlier rows and makes the URN present. */
  lemma AppendedRow(posts: seq<Row>, p: Row, urn: string)
    requires "urn" in p && p["urn"] == JStr(urn)
    ensures |posts + [p]| == |posts| + 1
    ensures (posts + [p])[..|posts|] == posts && (posts + [p])[|posts|] == p
    ensures HasUrn(posts + [p], urn)
  {
    assert Get((posts + [p])[|posts|], "urn") == JStr(urn);
  }

  /** A created article appends one `NewPost` row built from its metadata. */
  lemma CreatedRow(db: Db, env: Env, username: string, a: Article) returns (postId: nat, postedAt: int)
    requires ProcessArticle(db, env, username, a).1 == Created
    ensures env.metadata(a.url).Ok? && Likes(env.metadata(a.url).value).Some?
    ensures !HasUrn(db.posts, Urn(username, Slug(a)))
    ensures ProcessArticle(db, env, username, a).0.posts ==
      db.posts + [NewPost(env, postId, Urn(username, Slug(a)), postedAt, username, a,
                          env.metadata(a.url).value, Likes(env.metadata(a.url).value).value)]
  {
    var m := env.metadata(a.url).value;
    var lookup := Request(db, env);
    postId := ManageData.NewId(lookup.0.store).0;
    postedAt := PostedAt(env, m).value;
  }

  /** The identity fields of a backfilled row. */
  lemma NewPostKind(env: Env, postId: nat, urn: string, postedAt: int, username: string, a: Article, m: Row, likes: Json)
    ensures var p := NewPost(env, postId, urn, postedAt, username, a, m, likes);
      p["platform"] == JStr("substack") && p["post_type"] == JStr("article")
  {
  }

  /** The URN of a backfilled row. */
  lemma NewPostUrn(env: Env, postId: nat, urn: string, postedAt: int, username: string, a: Article, m: Row, likes: Json)
    ensures var p := NewPost(env, postId, urn, postedAt, username, a, m, likes);
      "urn" in p && p["urn"] == JStr(urn)
  {
  }

  /** Where a backfilled row comes from. */
  lemma NewPostSource(env: Env, postId: nat, urn: string, postedAt: int, username: string, a: Article, m: Row, likes: Json)
    ensures var p := NewPost(env, postId, urn, postedAt, username, a, m, likes);
      p["url"] == JStr(a.url) && p["author_username"] == JStr(username)
  {
  }

  /** The counts and text of a backfilled row. */
  lemma NewPostCounts(env: Env, postId: nat, urn: string, postedAt: int, username: string, a: Article, m: Row, likes: Json)
    ensures var p := NewPost(env, postId, urn, postedAt, username, a, m, likes);
      && p["likes_count"] == likes && p["comments_count"] == Comments(m)
      && p["text_content"] == TextContent(m, env.repr)
  {
  }

  // ---------------------------------------------------------------------
  // The loops
  // ---------------------------------------------------------------------

  /** The counters: posts processed, updated and created. */
  datatype Counts = Counts(processed: nat, updated: nat, created: nat)

  const NoCounts: Counts := Counts(0, 0, 0)

  function Count(c: Counts, o: Outcome): Counts
  {
    Counts(c.processed + 1, c.updated + if o == Updated then 1 else 0, c.created + if o == Created then 1 else 0)
  }

  /** The articles of one newsletter, each processed in turn. */
  function ProcessArticles(db: Db, env: Env, username: string, articles: seq<Article>, c: Counts): (Db, Counts)
    decreases |articles|
  {
    if articles == [] then (db, c)
    else
      var before := ProcessArticles(db, env, username, articles[..|articles| - 1], c);
      var r := ProcessArticle(before.0, env, username, articles[|articles| - 1]);
      (r.0, Count(before.1, r.1))
  }

  /** One profile: skipped without a username; a newsletter that cannot be listed adds nothing. */
  function ProcessProfile(db: Db, env: Env, p: ProfileManager.Profile, c: Counts): (Db, Counts)
  {
    if p.username == "" then (db, c)
    else
      var articles := env.newsletter(p.username);
      if articles.Err? then (db, c) else ProcessArticles(db, env, p.username, articles.value, c)
  }

  function ProcessProfiles(db: Db, env: Env, ps: seq<ProfileManager.Profile>, c: Counts): (Db, Counts)
    decreases |ps|
  {
    if ps == [] then (db, c)
    else
      var before := ProcessProfiles(db, env, ps[..|ps| - 1], c);
      ProcessProfile(before.0, env, ps[|ps| - 1], before.1)
  }

  /** Profiles that are active and on Substack, in view order. */
  function SubstackProfiles(ps: seq<ProfileManager.Profile>): (r: seq<ProfileManager.Profile>)
    ensures forall k :: 0 <= k < |r| ==> r[k].isActive && r[k].platform == "substack"
    decreases |ps|
  {
    if ps == [] then []
    else
      var last := ps[|ps| - 1];
      SubstackProfiles(ps[..|ps| - 1]) + if last.isActive && last.platform == "substack" then [last] else []
  }

  /** The run's final statistics: `errors` is processed minus updated minus created minus
      skipped, and skipped is always 0. */
  function RunStats(c: Counts): map<string, int>
  {
    map["processed" := c.processed, "new" := c.created, "duplicates" := 0,
        "errors" := c.processed - c.updated - c.created - 0]
  }

  /** How the script ends: the counters, or an exception escaping it (the run row could not be
      created, or the final completion failed). */
  datatype Ending = Ending(runId: nat, counts: Counts)

  /** The statistics written when no Substack profile is found. */
  const ZeroStats: map<string, int> := map["processed" := 0, "new" := 0, "duplicates" := 0, "errors" := 0]

  /** The `try` block: the profile query, then either the early completion with zeros (its
      failure caught by the outer handler) or the profile loop. */
  function Body(db: Db, env: Env, runId: nat): (Db, Counts)
  {
    var query := Request(db, env);
    if !query.1 then (query.0, NoCounts)
    else
      var profiles := SubstackProfiles(db.view);
      if profiles == [] then
        var early := ManageData.CompleteRun(query.0.store, env.ok, runId, ZeroStats, None, env.now);
        (if early.Err? then query.0.(store := query.0.store.(calls := query.0.store.calls + 1))
         else query.0.(store := early.value), NoCounts)
      else ProcessProfiles(query.0, env, profiles, NoCounts)
  }

  /** `fetch_and_update_substack_analytics`: create the run row (a failure escapes), run the
      body, then complete the run in `finally` (a failure escapes). */
  function FetchAndUpdate(db: Db, env: Env): (Db, Result<Ending>)
  {
    var created := ManageData.CreateRun(db.store, env.ok, "substack_analytics_fetcher.py", "linkedin", env.now);
    if created.Err? then (db, Err(created.error))
    else
      var runId := created.value.0;
      Finish(Body(db.(store := created.value.1), env, runId), env, runId)
  }

  /** The `finally` block: complete the run with the counters; a failure escapes. */
  function Finish(body: (Db, Counts), env: Env, runId: nat): (Db, Result<Ending>)
  {
    var done := ManageData.CompleteRun(body.0.store, env.ok, runId, RunStats(body.1), None, env.now);
    if done.Err? then (body.0.(store := body.0.store.(calls := body.0.store.calls + 1)), Err(done.error))
    else (body.0.(store := done.value), Ok(Ending(runId, body.1)))
  }

  /** The run's `errors` count: articles processed but neither updated nor created. */
  function Errors(c: Counts): int
  {
    c.processed - c.updated - c.created
  }

  /** The counters agree with each other: every update and creation was a processed article. */
  predicate Sound(c: Counts)
  {
    c.updated + c.created <= c.processed
  }

  /** Counting an article adds one to `processed`, and adds one to the errors exactly when the
      article failed. */
  lemma CountFacts(c: Counts, o: Outcome)
    ensures Count(c, o).processed == c.processed + 1
    ensures Errors(Count(c, o)) == Errors(c) + (if o == Failed then 1 else 0)
    ensures Sound(c) ==> Sound(Count(c, o))
  {
  }

  /** A newsletter's articles are all counted as processed; the counters stay sound, the errors
      never decrease, and neither the run rows nor the profiles change. */
  lemma {:induction false} ProcessArticlesFacts(db: Db, env: Env, username: string, articles: seq<Article>, c: Counts)
    ensures var r := ProcessArticles(db, env, username, articles, c);
      && r.1.processed == c.processed + |articles|
      && r.1.updated >= c.updated && r.1.created >= c.created
      && Errors(c) <= Errors(r.1) <= Errors(c) + |articles|
      && (Sound(c) ==> Sound(r.1))
      && r.0.store.runs == db.store.runs && r.0.view == db.view
    decreases |articles|
  {
    if articles != [] {
      var before := ProcessArticles(db, env, username, articles[..|articles| - 1], c);
      ProcessArticlesFacts(db, env, username, articles[..|articles| - 1], c);
      var r := ProcessArticle(before.0, env, username, articles[|articles| - 1]);
      ProcessArticleFrame(before.0, env, username, articles[|articles| - 1]);
      CountFacts(before.1, r.1);
    }
  }

  /** The same over the profiles: the errors never decrease, the counters stay sound, and
      neither the run rows nor the profiles change. A profile without a username, or whose
      newsletter cannot be listed, changes nothing. */
  lemma {:induction false} ProcessProfilesFacts(db: Db, env: Env, ps: seq<ProfileManager.Profile>, c: Counts)
    ensures var r := ProcessProfiles(db, env, ps, c);
      && r.1.processed >= c.processed
      && Errors(r.1) >= Errors(c)
      && (Sound(c) ==> Sound(r.1))
      && r.0.store.runs == db.store.runs && r.0.view == db.view
      && ((forall k :: 0 <= k < |ps| ==> ps[k].username == "" || env.newsletter(ps[k].username).Err?) ==> r == (db, c))
    decreases |ps|
  {
    if ps != [] {
      var before := ProcessProfiles(db, env, ps[..|ps| - 1], c);
      ProcessProfilesFacts(db, env, ps[..|ps| - 1], c);
      var p := ps[|ps| - 1];
      if p.username != "" && env.newsletter(p.username).Ok? {
        ProcessArticlesFacts(before.0, env, p.username, env.newsletter(p.username).value, before.1);
      }
    }
  }

  /** Exactly the active Substack profiles of the view are kept, in the view's order. */
  lemma {:induction false} SubstackProfilesFacts(ps: seq<ProfileManager.Profile>)
    ensures forall p :: p in SubstackProfiles(ps) <==> p in ps && p.isActive && p.platform == "substack"
    ensures |SubstackProfiles(ps)| <= |ps|
    ensures (forall k :: 0 <= k < |ps| ==> ps[k].isActive && ps[k].platform == "substack") ==> SubstackProfiles(ps) == ps
    decreases |ps|
  {
    if ps != [] {
      SubstackProfilesFacts(ps[..|ps| - 1]);
      assert ps[..|ps| - 1] + [ps[|ps| - 1]] == ps;
    }
  }

  /** The final statistics: `errors` is the processed articles neither updated nor created,
      `duplicates` is 0, and `new` is the created ones. */
  lemma RunStatsFacts(c: Counts)
    ensures "errors" in RunStats(c) && RunStats(c)["errors"] == Errors(c)
    ensures RunStats(c)["duplicates"] == 0 && RunStats(c)["new"] == c.created && RunStats(c)["processed"] == c.processed
    ensures Sound(c) ==> RunStats(c)["errors"] >= 0
    ensures Errors(NoCounts) == 0 && Sound(NoCounts)
  {
  }

  /** The body keeps the run's row and its script name,
      keeps the profiles, and leaves the counters sound; they stay at 0 when the profile query
      fails or no active Substack profile exists. */
  lemma BodyFacts(db: Db, env: Env, runId: nat)
    ensures var r := Body(db, env, runId);
      && (runId in db.store.runs ==>
            runId in r.0.store.runs && r.0.store.runs[runId].scriptName == db.store.runs[runId].scriptName)
      && r.0.view == db.view
      && Sound(r.1)
      && (!env.ok(db.store.calls) || SubstackProfiles(db.view) == [] ==> r.1 == NoCounts)
  {
    var query := Request(db, env);
    var profiles := SubstackProfiles(db.view);
    var r := Body(db, env, runId);
    if !query.1 {
      assert r == (query.0, NoCounts);
    } else if profiles == [] {
      var early := ManageData.CompleteRun(query.0.store, env.ok, runId, ZeroStats, None, env.now);
      assert r.1 == NoCounts;
      assert r.0.view == db.view;
    } else {
      ProcessProfilesFacts(query.0, env, profiles, NoCounts);
      assert r == ProcessProfiles(query.0, env, profiles, NoCounts);
    }
  }

  /** Without a run row nothing happens, and the profiles are never touched. */
  lemma FetchAndUpdateFrame(db: Db, env: Env)
    ensures var r := FetchAndUpdate(db, env);
      && r.0.view == db.view
      && (!env.ok(db.store.calls) ==> r.1.Err? && r.0 == db)
      && (r.1.Ok? ==> env.ok(db.store.calls) && r.1.value.runId == db.store.nextId)
  {
    var created := ManageData.CreateRun(db.store, env.ok, "substack_analytics_fetcher.py", "linkedin", env.now);
    if created.Ok? {
      var runId := created.value.0;
      var db1 := db.(store := created.value.1);
      var body := Body(db1, env, runId);
      BodyFacts(db1, env, runId);
      FinishFacts(body, env, runId);
      assert FetchAndUpdate(db, env) == Finish(body, env, runId);
    }
  }

  /** A completed script leaves its run row completed with the counters, and `failed` exactly
      when some processed article was neither updated nor created. */
  lemma FetchAndUpdateRun(db: Db, env: Env)
    ensures var r := FetchAndUpdate(db, env);
      r.1.Ok? ==>
        var e := r.1.value;
        && e.runId in r.0.store.runs
        && var run := r.0.store.runs[e.runId];
        && run.scriptName == "substack_analytics_fetcher.py"
        && (run.status == "failed" <==> Errors(e.counts) > 0)
        && run.postsFetched == e.counts.processed
        && run.postsNew == e.counts.created
        && run.postsUpdated == 0
  {
    var created := ManageData.CreateRun(db.store, env.ok, "substack_analytics_fetcher.py", "linkedin", env.now);
    if created.Ok? {
      var runId := created.value.0;
      var db1 := db.(store := created.value.1);
      assert runId in db1.store.runs && db1.store.runs[runId].scriptName == "substack_analytics_fetcher.py";
      BodyThenFinish(db1, env, runId);
    }
  }

  /** The body followed by the completion: the run's row, if it exists, ends with the
      counters, its script name, and status `failed` exactly when the errors are positive. */
  lemma BodyThenFinish(db: Db, env: Env, runId: nat)
    ensures var r := Finish(Body(db, env, runId), env, runId);
      r.1.Ok? && runId in db.store.runs ==>
        && r.1.value.runId == runId
        && runId in r.0.store.runs
        && var run := r.0.store.runs[runId];
        && run.scriptName == db.store.runs[runId].scriptName
        && (run.status == "failed" <==> Errors(r.1.value.counts) > 0)
        && run.postsFetched == r.1.value.counts.processed
        && run.postsNew == r.1.value.counts.created
        && run.postsUpdated == 0
  {
    var body := Body(db, env, runId);
    BodyFacts(db, env, runId);
    FinishFacts(body, env, runId);
    var r := Finish(body, env, runId);
    if r.1.Ok? && runId in db.store.runs {
      assert r.1.value == Ending(runId, body.1);
    }
  }

  /** The counters are sound; a failed profile query or a view without active Substack
      profiles leaves them all at 0. */
  lemma FetchAndUpdateCounts(db: Db, env: Env)
    ensures var r := FetchAndUpdate(db, env);
      r.1.Ok? ==>
        && Sound(r.1.value.counts)
        && (!env.ok(db.store.calls + 1) || SubstackProfiles(db.view) == [] ==> r.1.value.counts == NoCounts)
  {
    var created := ManageData.CreateRun(db.store, env.ok, "substack_analytics_fetcher.py", "linkedin", env.now);
    if created.Ok? {
      var runId := created.value.0;
      var db1 := db.(store := created.value.1);
      assert db1.store.calls == db.store.calls + 1 && db1.view == db.view;
      var body := Body(db1, env, runId);
      BodyFacts(db1, env, runId);
      FinishFacts(body, env, runId);
      assert FetchAndUpdate(db, env) == Finish(body, env, runId);
    }
  }

  /** Completing the run keeps the profiles and, on success, records the counters in the
      run's row, which is `failed` exactly when the errors are positive. */
  lemma FinishFacts(body: (Db, Counts), env: Env, runId: nat)
    ensures var r := Finish(body, env, runId);
      && r.0.view == body.0.view
      && (r.1.Ok? ==>
            && r.1.value == Ending(runId, body.1)
            && (runId in body.0.store.runs ==>
                  && runId in r.0.store.runs
                  && var run := r.0.store.runs[runId];
                  && run.scriptName == body.0.store.runs[runId].scriptName
                  && (run.status == "failed" <==> Errors(body.1) > 0)
                  && run.postsFetched == body.1.processed
                  && run.postsNew == body.1.created
                  && run.postsUpdated == 0))
  {
    var r := Finish(body, env, runId);
    var stats := RunStats(body.1);
    var done := ManageData.CompleteRun(body.0.store, env.ok, runId, stats, None, env.now);
    if done.Ok? {
      assert r == (body.0.(store := done.value), Ok(Ending(runId, body.1)));
      if runId in body.0.store.runs {
        var run := done.value.runs[runId];
        assert run.status == "failed" <==> stats["errors"] > 0;
        assert run.postsFetched == stats["processed"];
        assert run.postsNew == stats["new"];
      }
    }
  }

  // ---------------------------------------------------------------------
  // The script, step by step
  // ---------------------------------------------------------------------

  /** The loop over one newsletter's articles: `processed` is counted before each article is
      handled, then `updated` or `created` when the handler succeeds. */
  method ProcessNewsletter(db: Db, env: Env, username: string, articles: seq<Article>, c: Counts)
    returns (db': Db, c': Counts)
    ensures (db', c') == ProcessArticles(db, env, username, articles, c)
  {
    db', c' := db, c;
    var j := 0;
    while j < |articles|
      invariant 0 <= j <= |articles|
      invariant (db', c') == ProcessArticles(db, env, username, articles[..j], c)
    {
      c' := c'.(processed := c'.processed + 1);
      var handled := ProcessArticle(db', env, username, articles[j]);
      db' := handled.0;
      if handled.1 == Updated {
        c' := c'.(updated := c'.updated + 1);
      } else if handled.1 == Created {
        c' := c'.(created := c'.created + 1);
      }
      assert articles[..j + 1][..j] == articles[..j];
      j := j + 1;
    }
    assert articles[..j] == articles;
  }

  /** The loop over the Substack profiles: each profile with a username has its newsletter
      fetched, and a failed fetch skips the profile. */
  method ProcessAllProfiles(db: Db, env: Env, profiles: seq<ProfileManager.Profile>) returns (db': Db, counts: Counts)
    ensures (db', counts) == ProcessProfiles(db, env, profiles, NoCounts)
  {
    db', counts := db, NoCounts;
    var i := 0;
    while i < |profiles|
      invariant 0 <= i <= |profiles|
      invariant (db', counts) == ProcessProfiles(db, env, profiles[..i], NoCounts)
    {
      var profile := profiles[i];
      if profile.username != "" {
        var articles := env.newsletter(profile.username);
        if articles.Ok? {
          db', counts := ProcessNewsletter(db', env, profile.username, articles.value, counts);
        }
      }
      assert profiles[..i + 1][..i] == profiles[..i];
      i := i + 1;
    }
    assert profiles[..i] == profiles;
  }

  /** The `try` body of the fetcher: request the analytics, stop early when there is no
      Substack profile, otherwise process every profile. */
  method RunBody(db: Db, env: Env, runId: nat) returns (db': Db, counts: Counts)
    ensures (db', counts) == Body(db, env, runId)
  {
    counts := NoCounts;
    var query := Request(db, env);
    db' := query.0;
    if query.1 {
      var profiles := SubstackProfiles(db.view);
      if profiles == [] {
        var early := ManageData.CompleteRun(db'.store, env.ok, runId, ZeroStats, None, env.now);
        if early.Err? {
          db' := db'.(store := db'.store.(calls := db'.store.calls + 1));
        } else {
          db' := db'.(store := early.value);
        }
      } else {
        db', counts := ProcessAllProfiles(query.0, env, profiles);
      }
    }
  }

  /** `fetch_and_update_substack_analytics`: create the run, run the body, complete the run. */
  method FetchAndUpdateSubstackAnalytics(db: Db, env: Env) returns (db': Db, result: Result<Ending>)
    ensures (db', result) == FetchAndUpdate(db, env)
  {
    var created := ManageData.CreateRun(db.store, env.ok, "substack_analytics_fetcher.py", "linkedin", env.now);
    if created.Err? {
      return db, Err(created.error);
    }
    var runId := created.value.0;
    var counts;
    db', counts := RunBody(db.(store := created.value.1), env, runId);
    var done := ManageData.CompleteRun(db'.store, env.ok, runId, RunStats(counts), None, env.now);
    if done.Err? {
      db' := db'.(store := db'.store.(calls := db'.store.calls + 1));
      result := Err(done.error);
    } else {
      db' := db'.(store := done.value);
      result := Ok(Ending(runId, counts));
    }
  }
}
