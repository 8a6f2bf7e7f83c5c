// The YouTube video browser (interactive_youtube.py): the legacy URL-keyed image cache, the
// action-letter map and its syncing to the action queue, marking videos with actions, and the
// text filter of the video table.

module InteractiveYoutube {
  import opened Common
  import MediaCache
  import InteractivePosts

  // ---------------------------------------------------------------------
  // get_cached_image_path
  // ---------------------------------------------------------------------

  /** The extension of a cached image, chosen from the lower-cased URL path: `.png`, then `.gif`,
      then `.webp` when they occur anywhere in it, and `.jpg` otherwise. */
  function ImageExt(path: string): (ext: string)
    ensures ext in {".png", ".gif", ".webp", ".jpg"}
    ensures ext != ".jpg" ==> Contains(path, ext)
    ensures Contains(path, ".png") ==> ext == ".png"
    ensures ext == ".gif" || ext == ".webp" || ext == ".jpg" ==> !Contains(path, ".png")
    ensures ext == ".webp" || ext == ".jpg" ==> !Contains(path, ".gif")
    ensures ext == ".jpg" ==> !Contains(path, ".webp")
  {
    if Contains(path, ".png") then ".png"
    else if Contains(path, ".gif") then ".gif"
    else if Contains(path, ".webp") then ".webp"
    else ".jpg"
  }

  /** The name of an image's file in `cache/images`: the MD5 of the URL's UTF-8 text, then the
      extension. */
  function CachedImageName(md5: MediaCache.Md5, url: string): string
  {
    md5(MediaCache.Utf8(url)) + ImageExt(Lower(MediaCache.UrlPath(url)))
  }

  /** A cache name splits back into the URL's digest and the extension, so two URLs share a file
      exactly when their digests and extensions agree. */
  lemma CachedImageNameSplits(md5: MediaCache.Md5, u1: string, u2: string)
    ensures var n1 := CachedImageName(md5, u1);
      && n1[..32] == md5(MediaCache.Utf8(u1))
      && n1[32..] == ImageExt(Lower(MediaCache.UrlPath(u1)))
    ensures CachedImageName(md5, u1) == CachedImageName(md5, u2) <==>
      (md5(MediaCache.Utf8(u1)) == md5(MediaCache.Utf8(u2))
       && ImageExt(Lower(MediaCache.UrlPath(u1))) == ImageExt(Lower(MediaCache.UrlPath(u2))))
  {
    var n1 := CachedImageName(md5, u1);
    var n2 := CachedImageName(md5, u2);
    assert n1[..32] == md5(MediaCache.Utf8(u1)) && n1[32..] == ImageExt(Lower(MediaCache.UrlPath(u1)));
    assert n2[..32] == md5(MediaCache.Utf8(u2)) && n2[32..] == ImageExt(Lower(MediaCache.UrlPath(u2)));
  }

  // ---------------------------------------------------------------------
  // get_image_data
  // ---------------------------------------------------------------------

  /** The bytes `get_image_data` returns and the files of `cache/images` after it. */
  datatype Fetched = Fetched(data: Result<seq<byte>>, cache: map<string, seq<byte>>)

  /** Whether `urlparse` sees an `http` or `https` URL. */
  predicate IsWebUrl(url: string)
  {
    MediaCache.SplitScheme(url).0 in {"http", "https"}
  }

  /** `get_image_data`: anything but an http(s) URL is read as a local file; otherwise a cached
      copy is returned, or the image is downloaded, written to the cache and returned. A read,
      download or write that fails raises. */
  function ImageData(md5: MediaCache.Md5, cache: map<string, seq<byte>>, local: map<string, seq<byte>>,
                     url: string, download: Result<seq<byte>>, writeOk: bool): Fetched
  {
    var name := CachedImageName(md5, url);
    if !IsWebUrl(url) then Fetched(if url in local then Ok(local[url]) else Err("no such file"), cache)
    else if name in cache then Fetched(Ok(cache[name]), cache)
    else if download.Err? then Fetched(Err(download.error), cache)
    else if writeOk then Fetched(Ok(download.value), cache[name := download.value])
    else Fetched(Err("write failed"), cache)
  }

  /** Whatever a web image lookup returns is what its cache file then holds; a local read leaves
      the cache alone. */
  lemma ImageDataStores(md5: MediaCache.Md5, cache: map<string, seq<byte>>, local: map<string, seq<byte>>,
                        url: string, download: Result<seq<byte>>, writeOk: bool)
    ensures var f := ImageData(md5, cache, local, url, download, writeOk);
      && (!IsWebUrl(url) ==> f.cache == cache)
      && (IsWebUrl(url) && f.data.Ok? ==> CachedImageName(md5, url) in f.cache && f.cache[CachedImageName(md5, url)] == f.data.value)
      && (f.data.Err? ==> f.cache == cache)
  {
    var name := CachedImageName(md5, url);
    if IsWebUrl(url) && name !in cache && download.Ok? && writeOk {
      assert ImageData(md5, cache, local, url, download, writeOk)
        == Fetched(Ok(download.value), cache[name := download.value]);
    }
  }

  /** Once a web image has been returned, asking again returns the same bytes from the cache,
      whatever the network would do, and changes nothing. */
  lemma ImageDataCaches(md5: MediaCache.Md5, cache: map<string, seq<byte>>, local: map<string, seq<byte>>,
                        url: string, d1: Result<seq<byte>>, w1: bool, d2: Result<seq<byte>>, w2: bool)
    requires IsWebUrl(url) && ImageData(md5, cache, local, url, d1, w1).data.Ok?
    ensures var first := ImageData(md5, cache, local, url, d1, w1);
      ImageData(md5, first.cache, local, url, d2, w2) == first
  {
  }

  /** A local file bypasses the cache: the result depends on neither the cache nor the network. */
  lemma LocalBypassesCache(md5: MediaCache.Md5, c1: map<string, seq<byte>>, c2: map<string, seq<byte>>,
                           local: map<string, seq<byte>>, url: string,
                           d1: Result<seq<byte>>, w1: bool, d2: Result<seq<byte>>, w2: bool)
    requires !IsWebUrl(url)
    ensures ImageData(md5, c1, local, url, d1, w1).data == ImageData(md5, c2, local, url, d2, w2).data
    ensures ImageData(md5, c1, local, url, d1, w1).data.Ok? <==> url in local
  {
  }

  /** The downloaded bytes are what is returned and what lands in the cache. */
  lemma MissStoresDownload(md5: MediaCache.Md5, cache: map<string, seq<byte>>, local: map<string, seq<byte>>,
                           url: string, bytes: seq<byte>)
    requires IsWebUrl(url) && CachedImageName(md5, url) !in cache
    ensures var f := ImageData(md5, cache, local, url, Ok(bytes), true);
      f.data == Ok(bytes) && f.cache == cache[CachedImageName(md5, url) := bytes]
  {
  }

  /** The directory `cache/images`. */
  class ImageCache {
    const md5: MediaCache.Md5
    var files: map<string, seq<byte>>

    constructor(md5: MediaCache.Md5, files: map<string, seq<byte>>)
      ensures this.md5 == md5 && this.files == files
    {
      this.md5 := md5;
      this.files := files;
    }

    /** `get_image_data`, writing the cache file on a miss. */
    method GetImageData(local: map<string, seq<byte>>, url: string, download: Result<seq<byte>>, writeOk: bool)
      returns (r: Result<seq<byte>>)
      modifies this
      ensures var f := ImageData(md5, old(files), local, url, download, writeOk);
        r == f.data && files == f.cache
    {
      if !IsWebUrl(url) {
        if url in local {
          return Ok(local[url]);
        }
        return Err("no such file");
      }
      var name := CachedImageName(md5, url);
      if name in files {
        return Ok(files[name]);
      }
      if download.Err? {
        return Err(download.error);
      }
      if !writeOk {
        return Err("write failed");
      }
      files := files[name := download.value];
      r := download;
    }
  }

  // ---------------------------------------------------------------------
  // ACTION_TYPE_MAP, REVERSE_ACTION_TYPE_MAP
  // ---------------------------------------------------------------------

  const ActionTypes: map<char, string> := map[
    'w' := "watch_later",
    's' := "save",
    'n' := "note",
    'a' := "auto_summarize_and_post",
    'k' := "add_to_knowledge_base",
    'i' := "add_to_inspiration_sources"
  ]

  predicate Injective(m: map<char, string>)
  {
    forall a, b :: a in m && b in m && m[a] == m[b] ==> a == b
  }

  /** `{v: k for k, v in m.items()}`. */
  function Invert(m: map<char, string>): (r: map<string, char>)
    requires Injective(m)
  {
    map k | k in m :: m[k] := k
  }

  /** Inverting an injective map gives its exact inverse: a round trip from either side is the
      identity, and the keys of one are the values of the other. */
  lemma InvertInverse(m: map<char, string>)
    requires Injective(m)
    ensures forall k :: k in m ==> m[k] in Invert(m) && Invert(m)[m[k]] == k
    ensures forall v :: v in Invert(m) ==> Invert(m)[v] in m && m[Invert(m)[v]] == v
    ensures Invert(m).Keys == m.Values
  {
    var r := Invert(m);
    forall v | v in r ensures r[v] in m && m[r[v]] == v {
      var k :| k in m && m[k] == v;
      assert r[v] == k;
    }
    forall v | v in m.Values ensures v in r {
      var k :| k in m && m[k] == v;
      assert m[k] in r;
    }
  }

  lemma ActionTypesInjective()
    ensures Injective(ActionTypes)
  {
  }

  /** `REVERSE_ACTION_TYPE_MAP`: the exact inverse of the action map. Its keys are the action
      types, and a round trip from either side is the identity. */
  function ReverseActionTypes(): (r: map<string, char>)
    ensures r.Keys == ActionTypes.Values
    ensures forall k :: k in ActionTypes ==> r[ActionTypes[k]] == k
    ensures forall v :: v in r ==> r[v] in ActionTypes && ActionTypes[r[v]] == v
  {
    ActionTypesInjective();
    InvertInverse(ActionTypes);
    Invert(ActionTypes)
  }

  // ---------------------------------------------------------------------
  // sync_actions_to_db
  // ---------------------------------------------------------------------

  /** A row of the remote `action_queue` table (its uuid and creation time left out). */
  datatype QueueRow = QueueRow(postId: Json, actionType: string, status: string)

  /** The inserts for the action letters `keys`, in order: a letter outside the map is ignored
      and a failed insert (logged and swallowed) adds nothing. */
  function InsertActions(queue: seq<QueueRow>, postId: Json, keys: seq<char>, insertOk: char -> bool): seq<QueueRow>
    decreases |keys|
  {
    if keys == [] then queue
    else
      var k := keys[0];
      var q := if k in ActionTypes && insertOk(k) then queue + [QueueRow(postId, ActionTypes[k], "pending")] else queue;
      InsertActions(q, postId, keys[1..], insertOk)
  }

  /** `delete().eq('post_id', p).eq('action_type', t)`. */
  function DeleteRows(queue: seq<QueueRow>, postId: Json, actionType: string): (r: seq<QueueRow>)
    ensures forall row :: row in r <==> row in queue && (row.postId != postId || row.actionType != actionType)
    decreases |queue|
  {
    if queue == [] then []
    else
      var rest := DeleteRows(queue[1..], postId, actionType);
      if queue[0].postId == postId && queue[0].actionType == actionType then rest else [queue[0]] + rest
  }

  /** The deletes for the action letters `keys`, in order. */
  function DeleteActions(queue: seq<QueueRow>, postId: Json, keys: seq<char>, deleteOk: char -> bool): seq<QueueRow>
    decreases |keys|
  {
    if keys == [] then queue
    else
      var k := keys[0];
      var q := if k in ActionTypes && deleteOk(k) then DeleteRows(queue, postId, ActionTypes[k]) else queue;
      DeleteActions(q, postId, keys[1..], deleteOk)
  }

  /** `sync_actions_to_db`: the additions, then the removals; with no client nothing happens.
      Set iteration is taken in ascending letter order. */
  function SyncActions(queue: seq<QueueRow>, postId: Json, added: set<char>, removed: set<char>,
                       clientOk: bool, insertOk: char -> bool, deleteOk: char -> bool): seq<QueueRow>
  {
    if !clientOk then queue
    else DeleteActions(InsertActions(queue, postId, SortedChars(added), insertOk), postId, SortedChars(removed), deleteOk)
  }

  /** The action type a row gets from one of `keys` whose call succeeds. */
  predicate TypeOfSome(keys: seq<char>, ok: char -> bool, actionType: string)
  {
    exists i :: 0 <= i < |keys| && keys[i] in ActionTypes && ok(keys[i]) && ActionTypes[keys[i]] == actionType
  }

  lemma {:induction false} InsertActionsRows(queue: seq<QueueRow>, postId: Json, keys: seq<char>, insertOk: char -> bool)
    ensures forall row :: row in InsertActions(queue, postId, keys, insertOk) <==>
      (row in queue || (row.postId == postId && row.status == "pending" && TypeOfSome(keys, insertOk, row.actionType)))
    decreases |keys|
  {
    if keys != [] {
      var k := keys[0];
      var q := if k in ActionTypes && insertOk(k) then queue + [QueueRow(postId, ActionTypes[k], "pending")] else queue;
      InsertActionsRows(q, postId, keys[1..], insertOk);
      forall t ensures TypeOfSome(keys, insertOk, t) <==>
        ((k in ActionTypes && insertOk(k) && ActionTypes[k] == t) || TypeOfSome(keys[1..], insertOk, t))
      {
        if TypeOfSome(keys, insertOk, t) {
          var i :| 0 <= i < |keys| && keys[i] in ActionTypes && insertOk(keys[i]) && ActionTypes[keys[i]] == t;
          if i > 0 {
            assert keys[1..][i - 1] == keys[i];
          }
        }
        if TypeOfSome(keys[1..], insertOk, t) {
          var i :| 0 <= i < |keys[1..]| && keys[1..][i] in ActionTypes && insertOk(keys[1..][i]) && ActionTypes[keys[1..][i]] == t;
          assert keys[i + 1] == keys[1..][i];
        }
      }
    }
  }

  lemma {:induction false} DeleteActionsRows(queue: seq<QueueRow>, postId: Json, keys: seq<char>, deleteOk: char -> bool)
    ensures forall row :: row in DeleteActions(queue, postId, keys, deleteOk) <==>
      (row in queue && !(row.postId == postId && TypeOfSome(keys, deleteOk, row.actionType)))
    decreases |keys|
  {
    if keys != [] {
      var k := keys[0];
      var q := if k in ActionTypes && deleteOk(k) then DeleteRows(queue, postId, ActionTypes[k]) else queue;
      DeleteActionsRows(q, postId, keys[1..], deleteOk);
      forall t ensures TypeOfSome(keys, deleteOk, t) <==>
        ((k in ActionTypes && deleteOk(k) && ActionTypes[k] == t) || TypeOfSome(keys[1..], deleteOk, t))
      {
        if TypeOfSome(keys, deleteOk, t) {
          var i :| 0 <= i < |keys| && keys[i] in ActionTypes && deleteOk(keys[i]) && ActionTypes[keys[i]] == t;
          if i > 0 {
            assert keys[1..][i - 1] == keys[i];
          }
        }
        if TypeOfSome(keys[1..], deleteOk, t) {
          var i :| 0 <= i < |keys[1..]| && keys[1..][i] in ActionTypes && deleteOk(keys[1..][i]) && ActionTypes[keys[1..][i]] == t;
          assert keys[i + 1] == keys[1..][i];
        }
      }
    }
  }

  /** The action type a row gets from a letter of `keys` whose call succeeds. */
  predicate TypeOfKey(keys: set<char>, ok: char -> bool, actionType: string)
  {
    exists k :: k in keys && k in ActionTypes && ok(k) && ActionTypes[k] == actionType
  }

  lemma SortedTypes(keys: set<char>, ok: char -> bool, t: string)
    ensures TypeOfSome(SortedChars(keys), ok, t) <==> TypeOfKey(keys, ok, t)
  {
    SortedCharsFacts(keys);
    var s := SortedChars(keys);
    if TypeOfKey(keys, ok, t) {
      var k :| k in keys && k in ActionTypes && ok(k) && ActionTypes[k] == t;
      assert k in s;
      var i :| 0 <= i < |s| && s[i] == k;
    }
    if TypeOfSome(s, ok, t) {
      var i :| 0 <= i < |s| && s[i] in ActionTypes && ok(s[i]) && ActionTypes[s[i]] == t;
      assert s[i] in s;
    }
  }

  /** After a sync the queue holds exactly: the old rows, plus one pending row for each added
      letter of the map whose insert succeeded, minus every row of the post whose type belongs to
      a removed letter whose delete succeeded. Letters outside the map have no effect. */
  lemma SyncActionsRows(queue: seq<QueueRow>, postId: Json, added: set<char>, removed: set<char>,
                        insertOk: char -> bool, deleteOk: char -> bool)
    ensures forall row :: row in SyncActions(queue, postId, added, removed, true, insertOk, deleteOk) <==>
      && (row in queue || (row.postId == postId && row.status == "pending" && TypeOfKey(added, insertOk, row.actionType)))
      && !(row.postId == postId && TypeOfKey(removed, deleteOk, row.actionType))
  {
    var inserted := InsertActions(queue, postId, SortedChars(added), insertOk);
    InsertActionsRows(queue, postId, SortedChars(added), insertOk);
    DeleteActionsRows(inserted, postId, SortedChars(removed), deleteOk);
    forall t: string
      ensures TypeOfSome(SortedChars(added), insertOk, t) <==> TypeOfKey(added, insertOk, t)
      ensures TypeOfSome(SortedChars(removed), deleteOk, t) <==> TypeOfKey(removed, deleteOk, t)
    {
      SortedTypes(added, insertOk, t);
      SortedTypes(removed, deleteOk, t);
    }
  }

  /** Only the letters of the map matter: dropping the others leaves the same rows. */
  lemma SyncIgnoresUnknownKeys(queue: seq<QueueRow>, postId: Json, added: set<char>, removed: set<char>,
                               insertOk: char -> bool, deleteOk: char -> bool)
    ensures forall row ::
      (row in SyncActions(queue, postId, added, removed, true, insertOk, deleteOk)
       <==> row in SyncActions(queue, postId, added * ActionTypes.Keys, removed * ActionTypes.Keys, true, insertOk, deleteOk))
  {
    SyncActionsRows(queue, postId, added, removed, insertOk, deleteOk);
    SyncActionsRows(queue, postId, added * ActionTypes.Keys, removed * ActionTypes.Keys, insertOk, deleteOk);
    forall t: string
      ensures TypeOfKey(added, insertOk, t) <==> TypeOfKey(added * ActionTypes.Keys, insertOk, t)
      ensures TypeOfKey(removed, deleteOk, t) <==> TypeOfKey(removed * ActionTypes.Keys, deleteOk, t)
    {
      if TypeOfKey(added, insertOk, t) {
        var k :| k in added && k in ActionTypes && insertOk(k) && ActionTypes[k] == t;
        assert k in added * ActionTypes.Keys;
      }
      if TypeOfKey(removed, deleteOk, t) {
        var k :| k in removed && k in ActionTypes && deleteOk(k) && ActionTypes[k] == t;
        assert k in removed * ActionTypes.Keys;
      }
    }
  }

  // ---------------------------------------------------------------------
  // Marking videos with actions
  // ---------------------------------------------------------------------

  /** The change between a video's old and new action sets: what was added and what removed.
      They are disjoint, and applying them to the old set gives the new one. */
  function Diff(before: set<char>, after: set<char>): (r: (set<char>, set<char>))
    ensures r.0 * r.1 == {} && r.0 * before == {} && r.1 <= before
    ensures (before - r.1) + r.0 == after
    ensures r.0 == {} && r.1 == {} <==> before == after
  {
    (after - before, before - after)
  }

  /** `_format_actions_display`: the action letters in ascending order, each once; "" for none. */
  function FormatActions(actions: set<char>): string
  {
    if actions == {} then "" else SortedChars(actions)
  }

  /** The display lists each action letter once, in ascending order, and is empty for none. */
  lemma FormatActionsFacts(actions: set<char>)
    ensures var r := FormatActions(actions);
      && (actions == {} <==> r == "")
      && |r| == |actions| && (forall c :: c in r <==> c in actions)
      && (forall i, j :: 0 <= i < j < |r| ==> r[i] < r[j])
  {
    SortedCharsFacts(actions);
  }

  /** A video's actions and when they were set. */
  datatype Mark = Mark(actions: set<char>, timestamp: int)

  /** A background job running `sync_actions_to_db`. */
  datatype SyncJob = SyncJob(postId: Json, added: set<char>, removed: set<char>)

  /** `post.get("text", "") + " " + post.get("author_username", "")`; a field that is not text
      makes the concatenation raise. */
  function Searchable(post: map<string, Json>): Option<string>
  {
    var text := GetOr(post, "text", JStr(""));
    var author := GetOr(post, "author_username", JStr(""));
    if text.JStr? && author.JStr? then Some(text.s + " " + author.s) else None
  }

  /** Whether `apply_filter` shows a post for a non-empty filter. */
  predicate Matches(post: map<string, Json>, filter: string)
    requires Searchable(post).Some?
  {
    Contains(Lower(Searchable(post).value), Lower(filter))
  }

  /** Whether the filter should show post `i`. */
  predicate Shows(posts: seq<map<string, Json>>, filter: string, i: nat)
    requires i < |posts|
  {
    filter == "" || (Searchable(posts[i]).Some? && Matches(posts[i], filter))
  }

  /** Whether post `i` stops the filter: its text cannot be searched for a non-empty filter. */
  predicate Blocks(posts: seq<map<string, Json>>, filter: string, i: nat)
    requires i < |posts|
  {
    filter != "" && Searchable(posts[i]).None?
  }

  /** The indices `apply_filter` adds to the table from index `from` on, and whether it gets
      through all posts (false when a post's searchable text cannot be built). */
  function Visible(posts: seq<map<string, Json>>, filter: string, from: nat): (r: (seq<nat>, bool))
    decreases |posts| - from
  {
    if from >= |posts| then ([], true)
    else if Blocks(posts, filter, from) then ([], false)
    else
      var rest := Visible(posts, filter, from + 1);
      ((if Shows(posts, filter, from) then [from] else []) + rest.0, rest.1)
  }

  /** The filter shows, in order, exactly the posts it should: all of them for the empty filter,
      otherwise those whose lower-cased text and author contain the lower-cased filter. */
  lemma {:induction false} VisibleExactly(posts: seq<map<string, Json>>, filter: string, from: nat)
    requires Visible(posts, filter, from).1
    ensures var shown := Visible(posts, filter, from).0;
      && (forall i, j :: 0 <= i < j < |shown| ==> shown[i] < shown[j])
      && (forall i :: i in shown ==> from <= i < |posts|)
      && (forall i :: from <= i < |posts| ==>
            (i in shown <==> (filter == "" || (Searchable(posts[i]).Some? && Matches(posts[i], filter)))))
    decreases |posts| - from
  {
    VisibleBounds(posts, filter, from);
    VisibleSorted(posts, filter, from);
    VisibleMembers(posts, filter, from);
  }

  lemma {:induction false} VisibleBounds(posts: seq<map<string, Json>>, filter: string, from: nat)
    ensures forall i :: i in Visible(posts, filter, from).0 ==> from <= i < |posts|
    decreases |posts| - from
  {
    if from < |posts| {
      VisibleBounds(posts, filter, from + 1);
    }
  }

  lemma {:induction false} VisibleSorted(posts: seq<map<string, Json>>, filter: string, from: nat)
    ensures var shown := Visible(posts, filter, from).0;
      forall i, j :: 0 <= i < j < |shown| ==> shown[i] < shown[j]
    decreases |posts| - from
  {
    if from < |posts| && !Blocks(posts, filter, from) {
      VisibleStep(posts, filter, from);
      VisibleSorted(posts, filter, from + 1);
      VisibleBounds(posts, filter, from + 1);
      var rest := Visible(posts, filter, from + 1).0;
      var shown := Visible(posts, filter, from).0;
      forall i, j | 0 <= i < j < |shown| ensures shown[i] < shown[j] {
        if Shows(posts, filter, from) {
          assert shown[j] == rest[j - 1] && rest[j - 1] in rest;
          if i > 0 {
            assert shown[i] == rest[i - 1];
          }
        }
      }
    }
  }

  lemma {:induction false} VisibleMembers(posts: seq<map<string, Json>>, filter: string, from: nat)
    requires Visible(posts, filter, from).1
    ensures forall i :: from <= i < |posts| ==> (i in Visible(posts, filter, from).0 <==> Shows(posts, filter, i))
    decreases |posts| - from
  {
    if from < |posts| {
      VisibleMembers(posts, filter, from + 1);
      VisibleBounds(posts, filter, from + 1);
    }
  }

  lemma VisibleStep(posts: seq<map<string, Json>>, filter: string, idx: nat)
    requires idx < |posts| && !Blocks(posts, filter, idx)
    ensures Visible(posts, filter, idx).1 == Visible(posts, filter, idx + 1).1
    ensures Visible(posts, filter, idx).0 ==
      (if Shows(posts, filter, idx) then [idx] else []) + Visible(posts, filter, idx + 1).0
  {
  }

  /** With the empty filter every post is shown and nothing can fail. */
  lemma {:induction false} VisibleAll(posts: seq<map<string, Json>>, from: nat)
    ensures Visible(posts, "", from).1
    ensures |Visible(posts, "", from).0| == if from <= |posts| then |posts| - from else 0
    decreases |posts| - from
  {
    if from < |posts| {
      VisibleAll(posts, from + 1);
    }
  }

  /** The video table: the loaded posts, their marks, the table's row keys in order, the
      row-to-post map, the "marked" cell of each row, the cursor row, the filter text, the
      status bar's (shown, total), the next row key the table hands out, and the sync jobs
      started so far. */
  class MainScreen {
    var posts: seq<map<string, Json>>
    var marked: map<nat, Mark>
    var rows: seq<nat>
    var postIndex: map<nat, nat>
    var cells: map<nat, Json>
    var cursor: Option<nat>
    var filterText: string
    var status: (nat, nat)
    var nextKey: nat
    var syncs: seq<SyncJob>

    ghost predicate Valid()
      reads this
    {
      && (forall k :: k in postIndex ==> postIndex[k] < |posts|)
      && (forall i :: i in marked ==> i < |posts| && marked[i].actions != {})
    }

    /** The screen with its videos loaded and the marks read from the action queue, before any
        row is shown. */
    constructor(posts: seq<map<string, Json>>, marks: map<nat, Mark>)
      requires forall i :: i in marks ==> i < |posts| && marks[i].actions != {}
      ensures Valid() && this.posts == posts && marked == marks
      ensures rows == [] && postIndex == map[] && cells == map[] && cursor == None && filterText == ""
      ensures syncs == [] && nextKey == 0 && status == (0, |posts|)
    {
      this.posts := posts;
      marked := marks;
      rows := [];
      postIndex := map[];
      cells := map[];
      cursor := None;
      filterText := "";
      status := (0, |posts|);
      nextKey := 0;
      syncs := [];
    }

    /** The actions a post is marked with, none when it is not marked. */
    function ActionsOf(i: nat): (r: set<char>)
      reads this
      ensures i in marked ==> r == marked[i].actions
      ensures i !in marked ==> r == {}
    {
      if i in marked then marked[i].actions else {}
    }

    /** The sync job `_update_post_mark` starts: one for the difference between the old and the new
        actions, when there is a difference and the post has an id. */
    static function SyncFor(post: map<string, Json>, before: set<char>, actions: Option<set<char>>): seq<SyncJob>
    {
      var after := if actions.Some? then actions.value else {};
      var d := Diff(before, after);
      var postId := GetOr(post, "post_id", JNull);
      if (d.0 != {} || d.1 != {}) && Truthy(postId) then [SyncJob(postId, d.0, d.1)] else []
    }

    /** `_update_post_mark`: sets a post's actions (none when `actions` is None or empty), starts
        a sync of the difference when there is one and the post has an id, and refreshes the
        row's cell when the row is known. */
    method UpdatePostMark(postIdx: nat, actions: Option<set<char>>, rowKey: Option<nat>, now: int)
      requires Valid() && postIdx < |posts|
      modifies this
      ensures posts == old(posts) && rows == old(rows) && postIndex == old(postIndex) && cursor == old(cursor)
      ensures filterText == old(filterText) && status == old(status) && nextKey == old(nextKey)
      ensures Valid()
      ensures syncs == old(syncs) + SyncFor(posts[postIdx], old(ActionsOf(postIdx)), actions)
      ensures actions.Some? && actions.value != {} ==> marked == old(marked)[postIdx := Mark(actions.value, now)]
      ensures actions.None? || actions.value == {} ==> marked == old(marked) - {postIdx}
      ensures postIdx in marked <==> actions.Some? && actions.value != {}
      ensures cells == if rowKey.Some? then
        old(cells)[rowKey.value := JStr(FormatActions(if actions.Some? then actions.value else {}))] else old(cells)
    {
      var after := if actions.Some? then actions.value else {};
      syncs := syncs + SyncFor(posts[postIdx], ActionsOf(postIdx), actions);
      if actions.Some? && actions.value != {} {
        marked := marked[postIdx := Mark(actions.value, now)];
      } else if postIdx in marked {
        marked := marked - {postIdx};
      }
      if rowKey.Some? {
        cells := cells[rowKey.value := JStr(FormatActions(after))];
      }
    }

    /** The post under the cursor with its row key, if the cursor is on a row that shows one. */
    function CursorPost(): (r: Option<(nat, nat)>)
      reads this
      ensures r.Some? ==>
        (cursor.Some? && cursor.value < |rows| && r.value.0 == rows[cursor.value]
         && r.value.0 in postIndex && r.value.1 == postIndex[r.value.0])
      ensures r.None? ==> cursor.None? || cursor.value >= |rows| || rows[cursor.value] !in postIndex
    {
      if cursor.Some? && cursor.value < |rows| && rows[cursor.value] in postIndex
      then Some((rows[cursor.value], postIndex[rows[cursor.value]]))
      else None
    }

    /** `action_mark_post`: a marked post loses all its actions; an unmarked one is marked with
        save (`s`) alone. Either way the sync of the difference is scheduled as `SyncFor` says. */
    method MarkPost(now: int)
      requires Valid()
      modifies this
      ensures Valid()
      ensures old(CursorPost()).None? ==> marked == old(marked) && cells == old(cells) && syncs == old(syncs)
      ensures old(CursorPost()).Some? ==>
        var (row, idx) := old(CursorPost()).value;
        && (idx in old(marked) ==> marked == old(marked) - {idx} && cells == old(cells)[row := JStr("")])
        && (idx !in old(marked) ==> marked == old(marked)[idx := Mark({'s'}, now)] && cells == old(cells)[row := JStr("s")])
        && syncs == old(syncs) + SyncFor(old(posts)[idx], old(ActionsOf(idx)), if idx in old(marked) then None else Some({'s'}))
      ensures posts == old(posts) && rows == old(rows) && postIndex == old(postIndex) && cursor == old(cursor)
      ensures filterText == old(filterText) && status == old(status) && nextKey == old(nextKey)
    {
      var target := CursorPost();
      if target.Some? {
        var (row, idx) := target.value;
        if idx in marked {
          UpdatePostMark(idx, None, Some(row), now);
        } else {
          UpdatePostMark(idx, Some({'s'}), Some(row), now);
          assert FormatActions({'s'}) == "s" by {
            FormatActionsFacts({'s'});
            assert |FormatActions({'s'})| == 1 && 's' in FormatActions({'s'});
          }
        }
      }
    }

    /** The table holds one row per entry of `shown`, in order, under the keys handed out from
        `start` on: each row maps to its post and shows the post's `marked_indicator`. */
    ghost predicate Table(start: nat, shown: seq<nat>)
      reads this
    {
      && |rows| == |shown| && nextKey == start + |rows|
      && (forall j :: 0 <= j < |rows| ==>
            rows[j] == start + j && rows[j] in postIndex && postIndex[rows[j]] == shown[j] && shown[j] < |posts|
            && rows[j] in cells && cells[rows[j]] == GetOr(posts[shown[j]], "marked_indicator", JStr("")))
      && (forall k :: k in postIndex <==> k in rows)
      && (forall k :: k in cells <==> k in rows)
    }

    /** `apply_filter`: clears the table and adds a row for each post the filter shows, with keys
        handed out in order; the count of added rows goes to the status bar. A post whose text
        cannot be searched raises, leaving the rows added so far. */
    method ApplyFilter() returns (r: Result<nat>)
      requires Valid()
      modifies this
      ensures posts == old(posts) && marked == old(marked) && filterText == old(filterText)
      ensures cursor == old(cursor) && syncs == old(syncs)
      ensures Valid()
      ensures var (shown, complete) := Visible(posts, filterText, 0);
        && (r.Ok? <==> complete)
        && (r.Ok? ==> r.value == |shown| && Table(old(nextKey), shown) && status == (|shown|, |posts|))
        && (r.Err? ==> |rows| <= |shown| && Table(old(nextKey), shown[..|rows|]) && status == old(status))
    {
      rows := [];
      postIndex := map[];
      cells := map[];
      var complete := AddRows(filterText);
      if !complete {
        return Err("post text is not a string");
      }
      status := (|rows|, |posts|);
      r := Ok(|rows|);
    }

    /** The loop of `apply_filter` over the posts, from an empty table: a row for each post the
        filter shows, stopping at a post whose text cannot be searched. */
    method AddRows(filter: string) returns (complete: bool)
      requires rows == [] && postIndex == map[] && cells == map[]
      modifies this
      ensures posts == old(posts) && marked == old(marked) && filterText == old(filterText)
      ensures cursor == old(cursor) && syncs == old(syncs) && status == old(status)
      ensures var (shown, c) := Visible(posts, filter, 0);
        && complete == c
        && (complete ==> Table(old(nextKey), shown))
        && (!complete ==> |rows| <= |shown| && Table(old(nextKey), shown[..|rows|]))
    {
      var start := nextKey;
      ghost var shown: seq<nat> := [];
      var idx := 0;
      assert [] + Visible(posts, filter, 0).0 == Visible(posts, filter, 0).0;
      while idx < |posts|
        invariant 0 <= idx <= |posts|
        invariant Visible(posts, filter, 0).0 == shown + Visible(posts, filter, idx).0
        invariant Visible(posts, filter, 0).1 == Visible(posts, filter, idx).1
        invariant Table(start, shown)
        invariant posts == old(posts) && marked == old(marked) && filterText == old(filterText)
        invariant status == old(status) && cursor == old(cursor) && syncs == old(syncs)
      {
        var add := true;
        if filter != "" {
          var text := Searchable(posts[idx]);
          if text.None? {
            assert Visible(posts, filter, idx) == ([], false);
            assert shown == (shown + Visible(posts, filter, idx).0)[..|rows|];
            return false;
          }
          add := Contains(Lower(text.value), Lower(filter));
        }
        assert add == Shows(posts, filter, idx);
        ghost var here: seq<nat> := if add then [idx] else [];
        VisibleStep(posts, filter, idx);
        AppendAssoc(shown, here, Visible(posts, filter, idx + 1).0);
        if add {
          AddRow(idx, start, shown);
        }
        shown := shown + here;
        idx := idx + 1;
      }
      assert Visible(posts, filter, idx) == ([], true);
      assert shown + [] == shown;
      complete := true;
    }

    /** `_add_post_to_table`: a new row under the next key, mapped to the post, its "marked"
        cell taken from the post's `marked_indicator`. */
    method AddRow(idx: nat, ghost start: nat, ghost shown: seq<nat>)
      requires idx < |posts| && Table(start, shown)
      modifies this
      ensures posts == old(posts) && marked == old(marked) && filterText == old(filterText)
      ensures status == old(status) && cursor == old(cursor) && syncs == old(syncs)
      ensures Table(start, shown + [idx])
    {
      var key := nextKey;
      assert key !in rows;
      rows := rows + [key];
      postIndex := postIndex[key := idx];
      cells := cells[key := GetOr(posts[idx], "marked_indicator", JStr(""))];
      nextKey := key + 1;
    }
  }

  // ---------------------------------------------------------------------
  // The kitty graphics stream as this browser writes it
  // ---------------------------------------------------------------------

  /** A graphics command closed by ESC alone, without the backslash of the terminator ESC \. */
  function UnterminatedFrame(control: string, payload: string): string
  {
    [InteractivePosts.Esc] + "_G" + control + ";" + payload + [InteractivePosts.Esc]
  }

  function UnterminatedFrames(cs: seq<string>, i: nat, n: nat): (s: string)
    ensures s == [] || s[0] == InteractivePosts.Esc
    decreases |cs|
  {
    if cs == [] then []
    else UnterminatedFrame(InteractivePosts.Control(i, n), cs[0]) + UnterminatedFrames(cs[1..], i + 1, n)
  }

  /** What `display_image_kitty_to_terminal` writes for the base64 text of an image. */
  function YoutubeKittyStream(encoded: InteractivePosts.Base64): string
  {
    var cs := Chunks(encoded, InteractivePosts.ChunkSize);
    UnterminatedFrames(cs, 0, |cs|)
  }

  /** A command closed by ESC alone is followed by nothing or by the next command's ESC, never by
      the backslash a reader needs. */
  lemma UnframeUnterminated(control: string, payload: string, tail: string)
    requires ';' !in control && InteractivePosts.Esc !in payload
    requires tail == [] || tail[0] == InteractivePosts.Esc
    ensures InteractivePosts.Unframe(UnterminatedFrame(control, payload) + tail) == None
  {
    var esc := InteractivePosts.Esc;
    var s := UnterminatedFrame(control, payload) + tail;
    var after := payload + [esc] + tail;
    UnterminatedLayout(control, payload, tail);
    InteractivePosts.SplitFirst(control, ';', after);
    InteractivePosts.SplitFirst(payload, esc, tail);
    assert InteractivePosts.ReadCommand(s) == None;
  }

  /** The bytes of an unterminated command followed by more text. */
  lemma UnterminatedLayout(control: string, payload: string, tail: string)
    ensures var s := UnterminatedFrame(control, payload) + tail;
      |s| >= 3 && s[..3] == [InteractivePosts.Esc] + "_G"
      && s[3..] == control + [';'] + (payload + [InteractivePosts.Esc] + tail)
  {
  }

  /** No reader of the graphics protocol can read what this browser writes for a non-empty
      image: the first command never ends. */
  lemma YoutubeKittyStreamUnreadable(encoded: InteractivePosts.Base64)
    requires encoded != []
    ensures InteractivePosts.Unframe(YoutubeKittyStream(encoded)) == None
    ensures InteractivePosts.Unframe(InteractivePosts.KittyStream(encoded)).Some?
  {
    var cs := Chunks(encoded, InteractivePosts.ChunkSize);
    ChunksFlatten(encoded, InteractivePosts.ChunkSize);
    assert cs != [];
    InteractivePosts.ChunkIn(encoded, cs[0]);
    assert ';' !in InteractivePosts.Control(0, |cs|);
    UnframeUnterminated(InteractivePosts.Control(0, |cs|), cs[0], UnterminatedFrames(cs[1..], 1, |cs|));
    InteractivePosts.KittyStreamRoundTrip(encoded);
  }
}
