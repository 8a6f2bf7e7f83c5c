/**
 * Diagnosing missing media files (scripts/s3_upload/diagnose_missing_media.py).
 *
 * The filesystem is a map from paths to what they name, together with one traversal order
 * of all its paths; a recursive glob below a directory lists, in that order, the paths under
 * it with the wanted base name. The `post_media` query is a list of rows and a flag saying
 * whether the request succeeded.
 */
module DiagnoseMissingMedia {
  import opened Common

  type Row = map<string, Json>

  datatype Kind = File | Dir

  /** The paths that exist and what they are, and the order a recursive walk visits them in. */
  datatype Fs = Fs(kinds: map<string, Kind>, order: seq<string>)

  predicate Exists(fs: Fs, path: string)
  {
    path in fs.kinds
  }

  predicate IsFile(fs: Fs, path: string)
  {
    path in fs.kinds && fs.kinds[path] == File
  }

  /** `Path(p).name`: the last component once pathlib has dropped the empty and `.`
      components, or "" when none is left (as for `/` and `.`). */
  function BaseName(path: string): (r: string)
    ensures '/' !in r && r != "."
    decreases |path|
  {
    var s := RStripChar(path, '/');
    var tail := AfterLast(s, '/');
    if tail == "." then BaseName(s[..|s| - 1]) else tail
  }

  /** The name of a file joined onto a directory is that file name. */
  lemma BaseNameOfJoin(dir: string, name: string)
    requires name != [] && '/' !in name && name != "."
    ensures BaseName(dir + "/" + name) == name
  {
    var path := dir + "/" + name;
    assert path[|path| - 1] == name[|name| - 1];
    assert name[|name| - 1] in name;
    AfterLastOfSuffix(dir + "/", name, '/');
  }

  /** A trailing `/` does not change the name. */
  lemma BaseNameSlash(p: string)
    ensures BaseName(p + "/") == BaseName(p)
  {
    assert (p + "/")[..|p|] == p;
    assert RStripChar(p + "/", '/') == RStripChar(p, '/');
  }

  /** Nor does a trailing `/.`. */
  lemma BaseNameDot(p: string)
    ensures BaseName(p + "/.") == BaseName(p)
  {
    var q := p + "/.";
    assert q == (p + "/") + ".";
    assert q[|q| - 1] == '.';
    assert RStripChar(q, '/') == q;
    AfterLastOfSuffix(p + "/", ".", '/');
    assert q[..|q| - 1] == p + "/";
    BaseNameSlash(p);
  }

  /** `check_file_exists`: False for a falsy path, otherwise whether something exists there. */
  function CheckFileExists(fs: Fs, path: Json): (r: Result<bool>)
    ensures !Truthy(path) ==> r == Ok(false)
    ensures Truthy(path) && path.JStr? ==> r == Ok(Exists(fs, path.s))
    ensures r.Err? <==> Truthy(path) && !path.JStr?
  {
    if !Truthy(path) then Ok(false)
    else if path.JStr? then Ok(Exists(fs, path.s))
    else Err("TypeError: expected str, bytes or os.PathLike object")
  }

  // ---------------------------------------------------------------------
  // search_for_file_by_name
  // ---------------------------------------------------------------------

  /** `dir.rglob(name)`: the paths below `dir`, in walk order, whose base name is `name`. */
  function Glob(order: seq<string>, dir: string, name: string): (r: seq<string>)
    ensures forall p :: p in r <==> p in order && StartsWith(p, dir + "/") && BaseName(p) == name
    decreases |order|
  {
    if order == [] then []
    else
      var p := order[|order| - 1];
      Glob(order[..|order| - 1], dir, name) + if StartsWith(p, dir + "/") && BaseName(p) == name then [p] else []
  }

  /** The regular files among the paths, in order. */
  function Files(fs: Fs, paths: seq<string>): (r: seq<string>)
    ensures forall p :: p in r <==> p in paths && IsFile(fs, p)
    decreases |paths|
  {
    if paths == [] then []
    else Files(fs, paths[..|paths| - 1]) + if IsFile(fs, paths[|paths| - 1]) then [paths[|paths| - 1]] else []
  }

  /** The hits of one search directory: none when it does not exist. */
  function DirHits(fs: Fs, dir: string, name: string): seq<string>
  {
    if !Exists(fs, dir) then [] else Files(fs, Glob(fs.order, dir, name))
  }

  /** What `search_for_file_by_name` returns: the hits of each directory in turn. */
  function Search(fs: Fs, name: string, dirs: seq<string>): seq<string>
    decreases |dirs|
  {
    if dirs == [] then [] else Search(fs, name, dirs[..|dirs| - 1]) + DirHits(fs, dirs[|dirs| - 1], name)
  }

  /** The search finds exactly the regular files named `name` that the walk visits below an
      existing search directory: missing directories contribute nothing, and neither do
      directories or other non-files. */
  lemma {:induction false} SearchFinds(fs: Fs, name: string, dirs: seq<string>, p: string)
    ensures p in Search(fs, name, dirs) <==>
      && IsFile(fs, p) && BaseName(p) == name && p in fs.order
      && exists k :: 0 <= k < |dirs| && Exists(fs, dirs[k]) && StartsWith(p, dirs[k] + "/")
    decreases |dirs|
  {
    if dirs != [] {
      var init := dirs[..|dirs| - 1];
      SearchFinds(fs, name, init, p);
      if p in Search(fs, name, dirs) && p !in Search(fs, name, init) {
        assert p in DirHits(fs, dirs[|dirs| - 1], name);
        assert Exists(fs, dirs[|dirs| - 1]) && StartsWith(p, dirs[|dirs| - 1] + "/");
      }
      if && IsFile(fs, p) && BaseName(p) == name && p in fs.order
         && exists k :: 0 <= k < |dirs| && Exists(fs, dirs[k]) && StartsWith(p, dirs[k] + "/")
      {
        var k :| 0 <= k < |dirs| && Exists(fs, dirs[k]) && StartsWith(p, dirs[k] + "/");
        if k < |dirs| - 1 {
          assert init[k] == dirs[k];
        } else {
          assert p in DirHits(fs, dirs[k], name);
        }
      }
    }
  }

  /** `search_for_file_by_name`, with its loop over the directories and over each glob. */
  method SearchForFileByName(fs: Fs, name: string, dirs: seq<string>) returns (found: seq<string>)
    ensures found == Search(fs, name, dirs)
  {
    found := [];
    var i := 0;
    while i < |dirs|
      invariant 0 <= i <= |dirs|
      invariant found == Search(fs, name, dirs[..i])
    {
      assert dirs[..i + 1][..i] == dirs[..i];
      if Exists(fs, dirs[i]) {
        var paths := Glob(fs.order, dirs[i], name);
        var before := found;
        var j := 0;
        while j < |paths|
          invariant 0 <= j <= |paths|
          invariant found == before + Files(fs, paths[..j])
        {
          assert paths[..j + 1][..j] == paths[..j];
          if IsFile(fs, paths[j]) {
            found := found + [paths[j]];
          }
          j := j + 1;
        }
        assert paths[..j] == paths;
      }
      i := i + 1;
    }
    assert dirs[..i] == dirs;
  }

  // ---------------------------------------------------------------------
  // The search directories
  // ---------------------------------------------------------------------

  const CacheRoot: string := "cache/media"

  /** The three media sub-directories of a root, then the root itself. */
  function DirsUnder(root: string): (r: seq<string>)
    ensures |r| == 4 && r[3] == root
  {
    [root + "/images", root + "/videos", root + "/documents", root]
  }

  const SearchDirs: seq<string> := DirsUnder(CacheRoot)

  lemma StartsWithTrans(s: string, mid: string, prefix: string)
    requires StartsWith(s, mid) && StartsWith(mid, prefix)
    ensures StartsWith(s, prefix)
  {
    assert s[..|prefix|] == s[..|mid|][..|prefix|];
  }

  lemma PrefixOfAppend(a: string, b: string)
    ensures StartsWith(a + b, a)
  {
    assert (a + b)[..|a|] == a;
  }

  /** A path found by two of the search directories occurs twice in the result. */
  lemma {:induction false} FoundByTwo(fs: Fs, name: string, dirs: seq<string>, i: nat, j: nat, p: string)
    requires i < j < |dirs|
    requires p in DirHits(fs, dirs[i], name) && p in DirHits(fs, dirs[j], name)
    ensures multiset(Search(fs, name, dirs))[p] >= 2
    decreases |dirs|
  {
    var init := dirs[..|dirs| - 1];
    var last := DirHits(fs, dirs[|dirs| - 1], name);
    assert Search(fs, name, dirs) == Search(fs, name, init) + last;
    if j < |dirs| - 1 {
      assert init[i] == dirs[i] && init[j] == dirs[j];
      FoundByTwo(fs, name, init, i, j, p);
    } else {
      assert init[i] == dirs[i];
      FoundBy(fs, name, init, i, p);
    }
  }

  /** A path found by one of the search directories is in the result. */
  lemma {:induction false} FoundBy(fs: Fs, name: string, dirs: seq<string>, i: nat, p: string)
    requires i < |dirs| && p in DirHits(fs, dirs[i], name)
    ensures p in Search(fs, name, dirs)
    decreases |dirs|
  {
    var init := dirs[..|dirs| - 1];
    if i < |dirs| - 1 {
      assert init[i] == dirs[i];
      FoundBy(fs, name, init, i, p);
    }
  }

  /** A file found below one of the media sub-directories is found twice: once there and once
      more below the cache root, which the search walks recursively as well. */
  lemma FoundTwice(fs: Fs, root: string, p: string, sub: nat)
    requires sub < 3
    requires IsFile(fs, p) && p in fs.order
    requires Exists(fs, DirsUnder(root)[sub]) && Exists(fs, root)
    requires StartsWith(p, DirsUnder(root)[sub] + "/")
    ensures multiset(Search(fs, BaseName(p), DirsUnder(root)))[p] >= 2
  {
    var dirs := DirsUnder(root);
    assert StartsWith(p, root + "/") by {
      var tail := ["images/", "videos/", "documents/"][sub];
      assert dirs[sub] + "/" == (root + "/") + tail;
      PrefixOfAppend(root + "/", tail);
      StartsWithTrans(p, dirs[sub] + "/", root + "/");
    }
    HitBelow(fs, dirs[sub], p);
    HitBelow(fs, dirs[3], p);
    FoundByTwo(fs, BaseName(p), dirs, sub, 3, p);
  }

  /** An existing file the walk visits below an existing directory is one of its hits. */
  lemma HitBelow(fs: Fs, dir: string, p: string)
    requires IsFile(fs, p) && p in fs.order && Exists(fs, dir) && StartsWith(p, dir + "/")
    ensures p in DirHits(fs, dir, BaseName(p))
  {
    assert p in Glob(fs.order, dir, BaseName(p));
  }

  // ---------------------------------------------------------------------
  // Classification
  // ---------------------------------------------------------------------

  /** One entry of the findings; the variant is the bucket it goes to. */
  datatype Finding =
    | ExistsAtPath(mediaId: Json, path: string)
    | FoundElsewhere(mediaId: Json, expectedPath: string, foundPaths: seq<string>)
    | NotFound(mediaId: Json, expectedPath: string, mediaUrl: Json)
    | NoPathInfo(mediaId: Json, mediaUrl: Json, md5Sum: Json)

  /** The four buckets, in record order. */
  datatype Findings = Findings(
    fileExistsAtPath: seq<Finding>,
    fileFoundElsewhere: seq<Finding>,
    fileNotFound: seq<Finding>,
    noPathInfo: seq<Finding>)

  /** The bucket of one record; an error when it has no `media_id` or its path is a truthy
      non-string. */
  function Classify(fs: Fs, record: Row): Result<Finding>
  {
    if "media_id" !in record then Err("KeyError: 'media_id'")
    else
      var mediaId := record["media_id"];
      var localPath := Get(record, "local_file_path");
      var mediaUrl := Get(record, "media_url");
      if !Truthy(localPath) then Ok(NoPathInfo(mediaId, mediaUrl, Get(record, "md5_sum")))
      else
        var present := CheckFileExists(fs, localPath);
        if present.Err? then Err(present.error)
        else if present.value then Ok(ExistsAtPath(mediaId, localPath.s))
        else
          var found := Search(fs, BaseName(localPath.s), SearchDirs);
          if found != [] then Ok(FoundElsewhere(mediaId, localPath.s, found))
          else Ok(NotFound(mediaId, localPath.s, mediaUrl))
  }

  /** The cases of a classification: no path gives `no_path_info`; a path that exists gives
      `file_exists_at_path` whatever the walk would find, so no search is needed; otherwise
      every file found by name is listed under `file_found_elsewhere`, and none found gives
      `file_not_found`. */
  lemma ClassifyCases(fs: Fs, record: Row, walk: seq<string>)
    requires "media_id" in record
    ensures var path := Get(record, "local_file_path");
      && (!Truthy(path) ==> Classify(fs, record).Ok? && Classify(fs, record).value.NoPathInfo?)
      && (Truthy(path) && path.JStr? && Exists(fs, path.s) ==>
            && Classify(fs, record) == Ok(ExistsAtPath(record["media_id"], path.s))
            && Classify(fs.(order := walk), record) == Classify(fs, record))
      && (Truthy(path) && path.JStr? && !Exists(fs, path.s) ==>
            var found := Search(fs, BaseName(path.s), SearchDirs);
            && (found != [] ==> Classify(fs, record) == Ok(FoundElsewhere(record["media_id"], path.s, found)))
            && (found == [] ==> Classify(fs, record).Ok? && Classify(fs, record).value.NotFound?))
      && (Classify(fs, record).Err? <==> Truthy(path) && !path.JStr?)
  {
  }

  function Put(f: Findings, x: Finding): Findings
  {
    match x
    case ExistsAtPath(_, _) => f.(fileExistsAtPath := f.fileExistsAtPath + [x])
    case FoundElsewhere(_, _, _) => f.(fileFoundElsewhere := f.fileFoundElsewhere + [x])
    case NotFound(_, _, _) => f.(fileNotFound := f.fileNotFound + [x])
    case NoPathInfo(_, _, _) => f.(noPathInfo := f.noPathInfo + [x])
  }

  const NoFindings: Findings := Findings([], [], [], [])

  /** The classification loop: each record is classified and put in its bucket; an error
      ends the script. */
  function Diagnose(fs: Fs, records: seq<Row>): Result<Findings>
    decreases |records|
  {
    if records == [] then Ok(NoFindings)
    else
      var before := Diagnose(fs, records[..|records| - 1]);
      var x := Classify(fs, records[|records| - 1]);
      if before.Err? then before
      else if x.Err? then Err(x.error)
      else Ok(Put(before.value, x.value))
  }

  /** Each bucket holds only its own kind of entry. */
  predicate Sorted(f: Findings)
  {
    && (forall k :: 0 <= k < |f.fileExistsAtPath| ==> f.fileExistsAtPath[k].ExistsAtPath?)
    && (forall k :: 0 <= k < |f.fileFoundElsewhere| ==> f.fileFoundElsewhere[k].FoundElsewhere?)
    && (forall k :: 0 <= k < |f.fileNotFound| ==> f.fileNotFound[k].NotFound?)
    && (forall k :: 0 <= k < |f.noPathInfo| ==> f.noPathInfo[k].NoPathInfo?)
  }

  function Total(f: Findings): nat
  {
    |f.fileExistsAtPath| + |f.fileFoundElsewhere| + |f.fileNotFound| + |f.noPathInfo|
  }

  /** The entries of one bucket, in order. */
  function Bucket(f: Findings, x: Finding): seq<Finding>
  {
    match x
    case ExistsAtPath(_, _) => f.fileExistsAtPath
    case FoundElsewhere(_, _, _) => f.fileFoundElsewhere
    case NotFound(_, _, _) => f.fileNotFound
    case NoPathInfo(_, _, _) => f.noPathInfo
  }

  /** Putting an entry adds it to the end of its own bucket and to no other. */
  lemma PutFacts(f: Findings, x: Finding)
    ensures Total(Put(f, x)) == Total(f) + 1
    ensures Sorted(f) ==> Sorted(Put(f, x))
    ensures Bucket(Put(f, x), x) == Bucket(f, x) + [x]
    ensures forall e :: e in Put(f, x).fileExistsAtPath <==> e in f.fileExistsAtPath || (x.ExistsAtPath? && e == x)
    ensures forall e :: e in Put(f, x).fileFoundElsewhere <==> e in f.fileFoundElsewhere || (x.FoundElsewhere? && e == x)
    ensures forall e :: e in Put(f, x).fileNotFound <==> e in f.fileNotFound || (x.NotFound? && e == x)
    ensures forall e :: e in Put(f, x).noPathInfo <==> e in f.noPathInfo || (x.NoPathInfo? && e == x)
  {
  }

  /** The run fails exactly when some record cannot be classified. */
  lemma {:induction false} DiagnoseFails(fs: Fs, records: seq<Row>)
    ensures Diagnose(fs, records).Err? <==> exists k :: 0 <= k < |records| && Classify(fs, records[k]).Err?
    decreases |records|
  {
    if records != [] {
      var init := records[..|records| - 1];
      DiagnoseFails(fs, init);
      if exists k :: 0 <= k < |init| && Classify(fs, init[k]).Err? {
        var k :| 0 <= k < |init| && Classify(fs, init[k]).Err?;
        assert records[k] == init[k];
      }
      if exists k :: 0 <= k < |records| && Classify(fs, records[k]).Err? {
        var k :| 0 <= k < |records| && Classify(fs, records[k]).Err?;
        if k < |init| {
          assert records[k] == init[k];
        }
      }
    }
  }

  /** Every record lands in exactly one bucket: the buckets hold as many entries as there are
      records, and each bucket holds only its own kind. */
  lemma {:induction false} DiagnoseCounts(fs: Fs, records: seq<Row>)
    ensures Diagnose(fs, records).Ok? ==>
      && Total(Diagnose(fs, records).value) == |records|
      && Sorted(Diagnose(fs, records).value)
    decreases |records|
  {
    if records != [] {
      var init := records[..|records| - 1];
      DiagnoseCounts(fs, init);
      var before := Diagnose(fs, init);
      var x := Classify(fs, records[|records| - 1]);
      if before.Ok? && x.Ok? {
        PutFacts(before.value, x.value);
      }
    }
  }

  /** Each record's entry is in the bucket of its kind. */
  lemma {:induction false} DiagnosePlaces(fs: Fs, records: seq<Row>)
    ensures Diagnose(fs, records).Ok? ==>
      forall k :: 0 <= k < |records| ==>
        Classify(fs, records[k]).Ok? &&
        Classify(fs, records[k]).value in Bucket(Diagnose(fs, records).value, Classify(fs, records[k]).value)
    decreases |records|
  {
    if records != [] {
      var init := records[..|records| - 1];
      DiagnosePlaces(fs, init);
      var before := Diagnose(fs, init);
      var x := Classify(fs, records[|records| - 1]);
      if before.Ok? && x.Ok? {
        PutFacts(before.value, x.value);
        var f := Put(before.value, x.value);
        forall k | 0 <= k < |records|
          ensures Classify(fs, records[k]).Ok? && Classify(fs, records[k]).value in Bucket(f, Classify(fs, records[k]).value)
        {
          if k < |init| {
            assert records[k] == init[k];
            BucketGrows(before.value, x.value, Classify(fs, init[k]).value);
          }
        }
      }
    }
  }

  /** Putting an entry keeps every bucket's earlier entries. */
  lemma BucketGrows(f: Findings, x: Finding, y: Finding)
    ensures forall e :: e in Bucket(f, y) ==> e in Bucket(Put(f, x), y)
  {
  }

  // ---------------------------------------------------------------------
  // The script
  // ---------------------------------------------------------------------

  /** The media ids the diagnosis looks for. */
  const MissingMediaIds: seq<string> := [
    "pm-7e0ad730", "pm-36ee02af", "pm-c0a732b4", "pm-b6b63100", "pm-6b1be843", "pm-9abe9848", "pm-d63f4f57",
    "pm-b75c19a9", "pm-c39ca98c", "pm-2af1c0b5", "pm-944b7807", "pm-6f757dd9", "pm-c5c4d113", "pm-659a35f1"]

  /** `.in_('media_id', MISSING_MEDIA_IDS)`. */
  predicate Wanted(row: Row)
  {
    "media_id" in row && row["media_id"].JStr? && row["media_id"].s in MissingMediaIds
  }

  /** The `post_media` rows whose `media_id` is one of the missing ids, in table order. */
  function Missing(table: seq<Row>): (r: seq<Row>)
    ensures forall row: Row :: row in r <==> row in table && Wanted(row)
    decreases |table|
  {
    if table == [] then []
    else
      var row := table[|table| - 1];
      Missing(table[..|table| - 1]) +
        if Wanted(row) then [row] else []
  }

  /** `diagnose_missing_media`, with its loop over the records; a failed query raises. */
  method DiagnoseMissing(fs: Fs, table: seq<Row>, queryOk: bool) returns (result: Result<Findings>)
    ensures !queryOk ==> result.Err?
    ensures queryOk ==> result == Diagnose(fs, Missing(table))
  {
    if !queryOk {
      return Err("post_media query failed");
    }
    var records := Missing(table);
    var findings := NoFindings;
    var i := 0;
    while i < |records|
      invariant 0 <= i <= |records|
      invariant Diagnose(fs, records[..i]) == Ok(findings)
    {
      assert records[..i + 1][..i] == records[..i];
      var x := Classify(fs, records[i]);
      if x.Err? {
        DiagnoseStops(fs, records, i + 1);
        return Err(x.error);
      }
      findings := Put(findings, x.value);
      i := i + 1;
    }
    assert records[..i] == records;
    result := Ok(findings);
  }

  /** Once a prefix fails, the whole classification fails with the same error. */
  lemma {:induction false} DiagnoseStops(fs: Fs, records: seq<Row>, n: nat)
    requires n <= |records| && Diagnose(fs, records[..n]).Err?
    ensures Diagnose(fs, records) == Diagnose(fs, records[..n])
    decreases |records| - n
  {
    if n < |records| {
      assert records[..n + 1][..n] == records[..n];
      DiagnoseStops(fs, records, n + 1);
    } else {
      assert records[..n] == records;
    }
  }
}
