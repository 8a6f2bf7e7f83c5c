// Ingestion of downloaded LinkedIn post files into the posts / data_downloads / download_runs
// tables (manage_data.py). The remote tables are values of type `Db`; each remote call is a
// step that may fail, decided by the oracle `ok` on the running call number.

module ManageData {
  import opened Common

  // ---------------------------------------------------------------------
  // get_post_urn
  // ---------------------------------------------------------------------

  /** The URN held under the `urn` key: a dict yields its activity or ugcPost URN. */
  function NestedUrn(u: Json): Json
  {
    match u
    case JObject(f) => Or(Get(f, "activity_urn"), Get(f, "ugcPost_urn"))
    case _ => u
  }

  /** `get_post_urn`: a truthy `full_urn` wins; otherwise the `urn` entry, if there is one. */
  function PostUrn(post: map<string, Json>): (r: Json)
    ensures Truthy(Get(post, "full_urn")) ==> r == post["full_urn"]
    ensures "urn" !in post ==> r == Get(post, "full_urn")
    ensures "urn" !in post && "full_urn" !in post ==> r == JNull
    ensures !Truthy(Get(post, "full_urn")) && "urn" in post && !post["urn"].JObject? ==> r == post["urn"]
    ensures !Truthy(Get(post, "full_urn")) && "urn" in post && post["urn"].JObject? ==>
      (Truthy(r) <==> Truthy(Get(post["urn"].fields, "activity_urn")) || Truthy(Get(post["urn"].fields, "ugcPost_urn")))
    ensures Truthy(r) <==> Truthy(Get(post, "full_urn")) || ("urn" in post && Truthy(NestedUrn(post["urn"])))
  {
    var urn := Get(post, "full_urn");
    if !Truthy(urn) && "urn" in post then NestedUrn(post["urn"]) else urn
  }

  // ---------------------------------------------------------------------
  // The remote tables
  // ---------------------------------------------------------------------

  datatype PostRow = PostRow(postId: nat, urn: Json, fullUrn: Json, platform: string, timestamp: Json,
                             username: Json, text: Json, postType: Json, url: Json, rawJson: Json)

  datatype DataDownload = DataDownload(downloadId: nat, postId: nat, runId: nat, totalReactions: Json,
                                       statsJson: Json, sourceFile: string)

  datatype Run = Run(status: string, scriptName: string, platform: string, startedAt: int,
                     completedAt: Option<int>, postsFetched: int, postsNew: int, postsUpdated: int,
                     errorMessage: Option<string>)

  /** The posts, data_downloads and download_runs tables, the next fresh id, and the number of
      remote calls made so far. */
  datatype Db = Db(posts: seq<PostRow>, downloads: seq<DataDownload>, runs: map<nat, Run>,
                   nextId: nat, calls: nat)

  /** The remote store's answers: the k-th remote call succeeds iff `ok(k)`. */
  type Net = nat -> bool

  function Called(db: Db): Db
  {
    db.(calls := db.calls + 1)
  }

  /** `generate_aws_id`: a fresh id. */
  function NewId(db: Db): (nat, Db)
  {
    (db.nextId, db.(nextId := db.nextId + 1))
  }

  /** `create_download_run`: a fresh run row with status `running`; a failed insert raises. */
  function CreateRun(db: Db, ok: Net, scriptName: string, platform: string, now: int): (r: Result<(nat, Db)>)
    ensures r.Ok? <==> ok(db.calls)
    ensures r.Ok? ==> var (id, db') := r.value;
      && id == db.nextId && id in db'.runs && db'.runs[id].status == "running"
      && db'.runs[id].scriptName == scriptName && db'.runs[id].platform == platform
      && db'.runs[id].startedAt == now
      && db'.posts == db.posts && db'.downloads == db.downloads
      && (forall k :: k in db.runs && k != id ==> k in db'.runs && db'.runs[k] == db.runs[k])
  {
    var (id, db1) := NewId(db);
    if !ok(db1.calls) then Err("download_runs insert failed")
    else
      var run := Run("running", scriptName, platform, now, None, 0, 0, 0, None);
      Ok((id, Called(db1).(runs := db1.runs[id := run])))
  }

  /** Python truthiness of an optional error message. */
  predicate GivenMessage(m: Option<string>)
  {
    m.Some? && m.value != ""
  }

  /** `complete_download_run`: `stats['errors']` must exist unless a message is given (`or`
      short-circuits); the run with that id, if any, gets status `failed` iff a message is given
      or errors were counted, and `posts_updated` 0. */
  function CompleteRun(db: Db, ok: Net, runId: nat, stats: map<string, int>, errorMessage: Option<string>,
                       now: int): (r: Result<Db>)
    ensures r.Ok? <==> (GivenMessage(errorMessage) || "errors" in stats) && ok(db.calls)
    ensures r.Ok? ==> r.value.posts == db.posts && r.value.downloads == db.downloads
    ensures r.Ok? ==> (runId in r.value.runs <==> runId in db.runs)
    ensures r.Ok? ==> forall k :: k in db.runs && k != runId ==> k in r.value.runs && r.value.runs[k] == db.runs[k]
    ensures r.Ok? && runId in db.runs ==>
      var run := r.value.runs[runId];
      && (run.status == "failed" <==> GivenMessage(errorMessage) || ("errors" in stats && stats["errors"] > 0))
      && (run.status == "completed" <==> !GivenMessage(errorMessage) && "errors" in stats && stats["errors"] <= 0)
      && run.postsUpdated == 0 && run.completedAt == Some(now) && run.errorMessage == errorMessage
      && run.postsFetched == (if "processed" in stats then stats["processed"] else 0)
      && run.postsNew == (if "new" in stats then stats["new"] else 0)
      && run.startedAt == db.runs[runId].startedAt && run.scriptName == db.runs[runId].scriptName
  {
    if !GivenMessage(errorMessage) && "errors" !in stats then Err("KeyError: 'errors'")
    else if !ok(db.calls) then Err("download_runs update failed")
    else
      var status := if GivenMessage(errorMessage) || stats["errors"] > 0 then "failed" else "completed";
      var db1 := Called(db);
      if runId !in db.runs then Ok(db1)
      else
        var run := db.runs[runId].(status := status, completedAt := Some(now),
                                   postsFetched := if "processed" in stats then stats["processed"] else 0,
                                   postsNew := if "new" in stats then stats["new"] else 0,
                                   postsUpdated := 0, errorMessage := errorMessage);
        Ok(db1.(runs := db.runs[runId := run]))
  }

  // ---------------------------------------------------------------------
  // import_directory
  // ---------------------------------------------------------------------

  /** The first post row with this URN (`select post_id ... eq urn`, first result). */
  function FindUrn(posts: seq<PostRow>, urn: Json): (r: Option<nat>)
    ensures r.None? <==> forall i :: 0 <= i < |posts| ==> posts[i].urn != urn
    ensures r.Some? ==> r.value < |posts| && posts[r.value].urn == urn
    decreases |posts|
  {
    if posts == [] then None
    else if posts[0].urn == urn then Some(0)
    else match FindUrn(posts[1..], urn)
      case None => None
      case Some(i) => Some(i + 1)
  }

  /** What the data_download step did: row written, insert failed, or `stats` was not a dict and
      the exception left the file. */
  datatype Dl = Written | WriteFailed | Crashed

  /** What became of one post. `Aborted`: an exception before the post was classified (not a
      dict, lookup failed, `author` or `posted_at` not a dict) ends the file. */
  datatype Fate = NoUrn | Aborted | InsertFailed | Seen(isNew: bool, dl: Dl)

  predicate EndsFile(f: Fate)
  {
    f.Aborted? || (f.Seen? && f.dl.Crashed?)
  }

  /** The data_download row for a resolved post, attempted for new and existing posts alike. */
  function Record(db: Db, ok: Net, post: map<string, Json>, postId: nat, runId: nat, path: string,
                  isNew: bool): (Db, Fate)
  {
    var (downloadId, db1) := NewId(db);
    var stats := GetOr(post, "stats", JObject(map[]));
    if !stats.JObject? then (db1, Seen(isNew, Crashed))
    else if !ok(db1.calls) then (Called(db1), Seen(isNew, WriteFailed))
    else
      var row := DataDownload(downloadId, postId, runId, GetOr(stats.fields, "total_reactions", JInt(0)),
                              stats, path);
      (Called(db1).(downloads := db1.downloads + [row]), Seen(isNew, Written))
  }

  /** The new posts row built from a post object. */
  function NewRow(postId: nat, urn: Json, post: map<string, Json>, author: map<string, Json>,
                  postedAt: map<string, Json>): PostRow
  {
    PostRow(postId, urn, Get(post, "full_urn"), "linkedin", Get(postedAt, "timestamp"),
            GetOr(author, "username", JStr("")), GetOr(post, "text", JStr("")),
            GetOr(post, "post_type", JStr("regular")), Get(post, "url"), JObject(post))
  }

  /** A post whose URN is not stored yet: a fresh id, then the posts row. */
  function InsertNew(db: Db, ok: Net, p: map<string, Json>, urn: Json, runId: nat, path: string): (Db, Fate)
  {
    var (postId, db1) := NewId(db);
    var author := GetOr(p, "author", JObject(map[]));
    var postedAt := GetOr(p, "posted_at", JObject(map[]));
    if !author.JObject? || !postedAt.JObject? then (db1, Aborted)
    else if !ok(db1.calls) then (Called(db1), InsertFailed)
    else
      var db2 := Called(db1).(posts := db1.posts + [NewRow(postId, urn, p, author.fields, postedAt.fields)]);
      Record(db2, ok, p, postId, runId, path, true)
  }

  /** One post of a file: lookup before insert, then the data_download row. */
  function ImportPost(db: Db, ok: Net, post: Json, runId: nat, path: string): (Db, Fate)
  {
    if !post.JObject? then (db, Aborted)
    else
      var p := post.fields;
      var urn := PostUrn(p);
      if !Truthy(urn) then (db, NoUrn)
      else if !ok(db.calls) then (Called(db), Aborted)
      else
        var db1 := Called(db);
        var found := FindUrn(db1.posts, urn);
        if found.Some? then Record(db1, ok, p, db1.posts[found.value].postId, runId, path, false)
        else InsertNew(db1, ok, p, urn, runId, path)
  }

  /** The counters of `import_directory`, with `errors` broken down by cause. */
  datatype Tally = Tally(processed: nat, newPosts: nat, duplicates: nat, missingUrn: nat, insertFailed: nat,
                         downloadFailed: nat, badFiles: nat, abortedEarly: nat, abortedLate: nat)

  const NoCounts := Tally(0, 0, 0, 0, 0, 0, 0, 0, 0)

  /** The dictionary `import_directory` returns. */
  datatype Stats = Stats(processed: nat, newPosts: nat, duplicates: nat, errors: nat)

  function StatsOf(t: Tally): Stats
  {
    Stats(t.processed, t.newPosts, t.duplicates,
          t.missingUrn + t.insertFailed + t.downloadFailed + t.badFiles + t.abortedEarly + t.abortedLate)
  }

  /** The stats as the dictionary handed to `complete_download_run`. */
  function StatsDict(s: Stats): (d: map<string, int>)
    ensures "errors" in d && d["errors"] == s.errors
    ensures "processed" in d && d["processed"] == s.processed && "new" in d && d["new"] == s.newPosts
  {
    map["processed" := s.processed, "new" := s.newPosts, "duplicates" := s.duplicates, "errors" := s.errors]
  }

  function Count(t: Tally, f: Fate): Tally
  {
    var t1 := t.(processed := t.processed + 1);
    match f
    case NoUrn => t1.(missingUrn := t1.missingUrn + 1)
    case Aborted => t1.(abortedEarly := t1.abortedEarly + 1)
    case InsertFailed => t1.(insertFailed := t1.insertFailed + 1)
    case Seen(isNew, dl) =>
      var t2 := if isNew then t1.(newPosts := t1.newPosts + 1) else t1.(duplicates := t1.duplicates + 1);
      match dl
      case Written => t2
      case WriteFailed => t2.(downloadFailed := t2.downloadFailed + 1)
      case Crashed => t2.(abortedLate := t2.abortedLate + 1)
  }

  /** The posts of a decoded file: a list as it is, a dict as a one-element list, else skipped. */
  function PostsIn(data: Json): (r: Option<seq<Json>>)
    ensures data.JArray? ==> r == Some(data.items)
    ensures data.JObject? ==> r == Some([data])
    ensures r.None? <==> !data.JArray? && !data.JObject?
  {
    match data
    case JArray(items) => Some(items)
    case JObject(_) => Some([data])
    case _ => None
  }

  /** A `*.json` file of the directory: its path and its decoded content (Err: unreadable). */
  datatype SourceFile = SourceFile(path: string, content: Result<Json>)

  /** The posts of one file, in order, until one of them raises. */
  function ImportPosts(db: Db, ok: Net, posts: seq<Json>, runId: nat, path: string, t: Tally): (Db, Tally)
    decreases |posts|
  {
    if posts == [] then (db, t)
    else
      var (db1, f) := ImportPost(db, ok, posts[0], runId, path);
      if EndsFile(f) then (db1, Count(t, f))
      else ImportPosts(db1, ok, posts[1..], runId, path, Count(t, f))
  }

  function ImportFile(db: Db, ok: Net, file: SourceFile, runId: nat, t: Tally): (Db, Tally)
  {
    match file.content
    case Err(_) => (db, t.(badFiles := t.badFiles + 1))
    case Ok(data) =>
      match PostsIn(data)
      case None => (db, t)
      case Some(posts) => ImportPosts(db, ok, posts, runId, file.path, t)
  }

  function ImportFiles(db: Db, ok: Net, files: seq<SourceFile>, runId: nat, t: Tally): (Db, Tally)
    decreases |files|
  {
    if files == [] then (db, t)
    else
      var (db1, t1) := ImportFile(db, ok, files[0], runId, t);
      ImportFiles(db1, ok, files[1..], runId, t1)
  }

  /** The whole of `import_directory`: a run is created only when none was given. */
  function Import(db: Db, ok: Net, files: seq<SourceFile>, runId: Option<nat>, now: int): Result<(Db, Stats, nat)>
  {
    var start := if runId.Some? then Ok((runId.value, db)) else CreateRun(db, ok, "manage_data.py", "linkedin", now);
    match start
    case Err(e) => Err(e)
    case Ok(started) =>
      var (run, db1) := started;
      var (db2, t) := ImportFiles(db1, ok, files, run, NoCounts);
      Ok((db2, StatsOf(t), run))
  }

  /** `import_directory`, file by file and post by post. */
  method ImportDirectory(db: Db, ok: Net, files: seq<SourceFile>, runId: Option<nat>, now: int)
    returns (r: Result<(Db, Stats, nat)>)
    ensures r == Import(db, ok, files, runId, now)
    ensures runId.Some? ==> r.Ok? && r.value.2 == runId.value && r.value.0.runs == db.runs
  {
    var run: nat, cur: Db;
    if runId.None? {
      var created := CreateRun(db, ok, "manage_data.py", "linkedin", now);
      if created.Err? {
        return Err(created.error);
      }
      run, cur := created.value.0, created.value.1;
    } else {
      run, cur := runId.value, db;
    }
    ghost var start := cur;
    var t := NoCounts;
    var i := 0;
    while i < |files|
      invariant 0 <= i <= |files|
      invariant ImportFiles(cur, ok, files[i..], run, t) == ImportFiles(start, ok, files, run, NoCounts)
      invariant runId.Some? ==> cur.runs == db.runs
    {
      assert files[i..][0] == files[i] && files[i..][1..] == files[i + 1..];
      var file := files[i];
      if file.content.Err? {
        t := t.(badFiles := t.badFiles + 1);
      } else {
        var posts := PostsIn(file.content.value);
        if posts.Some? {
          ghost var target := ImportPosts(cur, ok, posts.value, run, file.path, t);
          var j := 0;
          var stop := false;
          while j < |posts.value| && !stop
            invariant 0 <= j <= |posts.value|
            invariant !stop ==> ImportPosts(cur, ok, posts.value[j..], run, file.path, t) == target
            invariant stop ==> (cur, t) == target
            invariant runId.Some? ==> cur.runs == db.runs
          {
            assert posts.value[j..][0] == posts.value[j] && posts.value[j..][1..] == posts.value[j + 1..];
            var (next, fate) := ImportPost(cur, ok, posts.value[j], run, file.path);
            ImportPostKeepsRuns(cur, ok, posts.value[j], run, file.path);
            cur, t := next, Count(t, fate);
            stop := EndsFile(fate);
            j := j + 1;
          }
          assert !stop ==> posts.value[j..] == [];
        }
      }
      i := i + 1;
    }
    assert files[i..] == [];
    r := Ok((cur, StatsOf(t), run));
  }

  lemma ImportPostKeepsRuns(db: Db, ok: Net, post: Json, runId: nat, path: string)
    ensures ImportPost(db, ok, post, runId, path).0.runs == db.runs
  {
  }

  // ---------------------------------------------------------------------
  // Properties of the import
  // ---------------------------------------------------------------------

  /** Every processed post is new, a duplicate, missing its URN, a failed insert, or the post
      whose exception ended its file before it was classified. */
  predicate Balanced(t: Tally)
  {
    t.processed == t.newPosts + t.duplicates + t.missingUrn + t.insertFailed + t.abortedEarly
  }

  /** No two post rows share a URN. */
  ghost predicate UniqueUrns(posts: seq<PostRow>)
  {
    forall i, j :: 0 <= i < j < |posts| ==> posts[i].urn != posts[j].urn
  }

  function PostIds(posts: seq<PostRow>): set<nat>
  {
    set r | r in posts :: r.postId
  }

  /** The tables are consistent: URNs unique, every data_download refers to a post row, and
      every id in use is below the next fresh id. */
  ghost predicate Consistent(db: Db)
  {
    && UniqueUrns(db.posts)
    && (forall d :: d in db.downloads ==> d.postId in PostIds(db.posts))
    && (forall r :: r in db.posts ==> r.postId < db.nextId)
    && (forall d :: d in db.downloads ==> d.downloadId < db.nextId)
  }

  lemma RecordFacts(db: Db, ok: Net, post: map<string, Json>, postId: nat, runId: nat, path: string, isNew: bool)
    requires Consistent(db) && postId in PostIds(db.posts)
    ensures var (db', f) := Record(db, ok, post, postId, runId, path, isNew);
      && Consistent(db') && db'.posts == db.posts && f.Seen? && f.isNew == isNew
      && |db'.downloads| == |db.downloads| + (if f.dl.Written? then 1 else 0)
      && (f.dl.Written? ==> db'.downloads[|db.downloads|].postId == postId
                            && db'.downloads[|db.downloads|].runId == runId)
  {
  }

  lemma InsertNewFacts(db: Db, ok: Net, p: map<string, Json>, urn: Json, runId: nat, path: string)
    requires Consistent(db) && forall i :: 0 <= i < |db.posts| ==> db.posts[i].urn != urn
    ensures var (db', f) := InsertNew(db, ok, p, urn, runId, path);
      && Consistent(db')
      && |db'.posts| == |db.posts| + (if f.Seen? && f.isNew then 1 else 0)
      && db'.posts[..|db.posts|] == db.posts
  {
    NewIdConsistent(db);
    var (postId, db1) := NewId(db);
    var author := GetOr(p, "author", JObject(map[]));
    var postedAt := GetOr(p, "posted_at", JObject(map[]));
    if author.JObject? && postedAt.JObject? && ok(db1.calls) {
      var row := NewRow(postId, urn, p, author.fields, postedAt.fields);
      var db2 := Called(db1).(posts := db1.posts + [row]);
      AppendConsistent(Called(db1), row);
      RecordFacts(db2, ok, p, postId, runId, path, true);
      assert db2.posts[..|db.posts|] == db.posts;
    }
  }

  /** Taking a fresh id, and counting a call, keep the tables consistent. */
  lemma NewIdConsistent(db: Db)
    requires Consistent(db)
    ensures Consistent(NewId(db).1) && Consistent(Called(NewId(db).1))
  {
  }

  /** Appending a row with a fresh URN and an id below the next fresh id keeps the tables
      consistent, and the new id is then in use. */
  lemma AppendConsistent(db: Db, row: PostRow)
    requires Consistent(db) && row.postId < db.nextId
    requires forall i :: 0 <= i < |db.posts| ==> db.posts[i].urn != row.urn
    ensures Consistent(db.(posts := db.posts + [row]))
    ensures row.postId in PostIds(db.posts + [row])
  {
    var posts := db.posts + [row];
    assert PostIds(db.posts) <= PostIds(posts) by {
      forall x | x in PostIds(db.posts) ensures x in PostIds(posts) {
        var r :| r in db.posts && r.postId == x;
        assert r in posts;
      }
    }
    assert row in posts;
  }

  /** One post keeps the tables consistent; exactly the new posts add a row. */
  lemma ImportPostFacts(db: Db, ok: Net, post: Json, runId: nat, path: string)
    requires Consistent(db)
    ensures var (db', f) := ImportPost(db, ok, post, runId, path);
      && Consistent(db')
      && |db'.posts| == |db.posts| + (if f.Seen? && f.isNew then 1 else 0)
      && db'.posts[..|db.posts|] == db.posts
  {
    if post.JObject? {
      var p := post.fields;
      var urn := PostUrn(p);
      if Truthy(urn) && ok(db.calls) {
        var db1 := Called(db);
        var found := FindUrn(db1.posts, urn);
        if found.Some? {
          assert db1.posts[found.value] in db1.posts;
          RecordFacts(db1, ok, p, db1.posts[found.value].postId, runId, path, false);
        } else {
          InsertNewFacts(db1, ok, p, urn, runId, path);
        }
      }
    }
  }

  /** A post whose URN is already stored, looked up successfully, is a duplicate: no posts row
      is added, and its data_download row (if written) refers to the stored post. */
  lemma SightingOfStoredUrn(db: Db, ok: Net, p: map<string, Json>, runId: nat, path: string, i: nat)
    requires Consistent(db) && Truthy(PostUrn(p)) && ok(db.calls)
    requires i < |db.posts| && db.posts[i].urn == PostUrn(p)
    ensures var (db', f) := ImportPost(db, ok, JObject(p), runId, path);
      && f.Seen? && !f.isNew && db'.posts == db.posts
      && (f.dl.Written? ==> db'.downloads[|db.downloads|].postId == db.posts[i].postId)
  {
    var k := FindUrn(db.posts, PostUrn(p)).value;
    assert k == i;
    assert db.posts[i] in db.posts;
    RecordFacts(Called(db), ok, p, db.posts[i].postId, runId, path, false);
  }

  /** Counting one post keeps the counters balanced; `new` grows exactly for a new post. */
  lemma CountBalanced(t: Tally, f: Fate)
    requires Balanced(t)
    ensures Balanced(Count(t, f))
    ensures Count(t, f).newPosts == t.newPosts + if f.Seen? && f.isNew then 1 else 0
  {
  }

  /** A prefix of a prefix is a prefix. */
  lemma PrefixOfPrefix<T>(a: seq<T>, b: seq<T>, c: seq<T>)
    requires |a| <= |b| <= |c| && b[..|a|] == a && c[..|b|] == b
    ensures c[..|a|] == a
  {
    assert c[..|a|] == c[..|b|][..|a|];
  }

  lemma {:induction false} ImportPostsFacts(db: Db, ok: Net, posts: seq<Json>, runId: nat, path: string, t: Tally)
    requires Consistent(db) && Balanced(t)
    ensures var (db', t') := ImportPosts(db, ok, posts, runId, path, t);
      && Consistent(db') && Balanced(t')
      && |db'.posts| == |db.posts| + (t'.newPosts - t.newPosts) && t'.newPosts >= t.newPosts
      && db'.posts[..|db.posts|] == db.posts
    decreases |posts|
  {
    if posts != [] {
      var (db1, f) := ImportPost(db, ok, posts[0], runId, path);
      ImportPostFacts(db, ok, posts[0], runId, path);
      CountBalanced(t, f);
      if !EndsFile(f) {
        ImportPostsFacts(db1, ok, posts[1..], runId, path, Count(t, f));
        var db' := ImportPosts(db1, ok, posts[1..], runId, path, Count(t, f)).0;
        PrefixOfPrefix(db.posts, db1.posts, db'.posts);
      }
    }
  }

  /** Over a whole directory: the tables stay consistent (in particular no URN gets a second
      posts row), the counters balance, and `new` is the number of posts rows added. */
  lemma {:induction false} ImportFilesFacts(db: Db, ok: Net, files: seq<SourceFile>, runId: nat, t: Tally)
    requires Consistent(db) && Balanced(t)
    ensures var (db', t') := ImportFiles(db, ok, files, runId, t);
      && Consistent(db') && Balanced(t')
      && |db'.posts| == |db.posts| + (t'.newPosts - t.newPosts) && t'.newPosts >= t.newPosts
      && db'.posts[..|db.posts|] == db.posts
    decreases |files|
  {
    if files != [] {
      var file := files[0];
      var (db1, t1) := ImportFile(db, ok, file, runId, t);
      if file.content.Ok? && PostsIn(file.content.value).Some? {
        ImportPostsFacts(db, ok, PostsIn(file.content.value).value, runId, file.path, t);
      }
      ImportFilesFacts(db1, ok, files[1..], runId, t1);
      var db' := ImportFiles(db1, ok, files[1..], runId, t1).0;
      PrefixOfPrefix(db.posts, db1.posts, db'.posts);
    }
  }

  /** `import_directory` in terms of its returned stats: processed posts are new, duplicates or
      among the errors, and the posts table grew by exactly `new` rows. */
  lemma ImportStats(db: Db, ok: Net, files: seq<SourceFile>, runId: Option<nat>, now: int)
    requires Consistent(db)
    ensures var r := Import(db, ok, files, runId, now);
      r.Ok? ==>
        && Consistent(r.value.0)
        && r.value.1.newPosts + r.value.1.duplicates <= r.value.1.processed
        && r.value.1.processed <= r.value.1.newPosts + r.value.1.duplicates + r.value.1.errors
        && |r.value.0.posts| == |db.posts| + r.value.1.newPosts
        && r.value.0.posts[..|db.posts|] == db.posts
  {
    var start := if runId.Some? then Ok((runId.value, db)) else CreateRun(db, ok, "manage_data.py", "linkedin", now);
    if start.Ok? {
      var (run, db1) := start.value;
      ImportFilesFacts(db1, ok, files, run, NoCounts);
      var (db2, t) := ImportFiles(db1, ok, files, run, NoCounts);
      assert Import(db, ok, files, runId, now) == Ok((db2, StatsOf(t), run));
    }
  }

  /** The run's final status: `completed` exactly when the import met no error of any kind. */
  lemma CompletedIffNoErrors(db: Db, ok: Net, runId: nat, t: Tally, now: int)
    requires runId in db.runs && ok(db.calls)
    ensures var r := CompleteRun(db, ok, runId, StatsDict(StatsOf(t)), None, now);
      && r.Ok?
      && (r.value.runs[runId].status == "completed" <==>
            t.missingUrn == 0 && t.insertFailed == 0 && t.downloadFailed == 0 && t.badFiles == 0
            && t.abortedEarly == 0 && t.abortedLate == 0)
  {
  }
}
