/**
 * The content-addressed media cache (media_cache.py).
 *
 * The cache directory tree `cache/media/{images,videos,documents}` is a map
 * from paths to file contents. MD5 is an opaque, deterministic function from
 * bytes to 32 lower-case hex digits. A download is the environment's answer
 * for one URL: the body and Content-Type header, or the error it raised.
 */
module MediaCache {
  import opened Common

  // ---------------------------------------------------------------------
  // Digests, paths, tables
  // ---------------------------------------------------------------------

  /** The value of `hashlib.md5(...).hexdigest()`: 32 hex digits. Only its length matters here:
      it lets a cache file name be split back into digest and extension. */
  type HexDigest = s: string | |s| == 32
    witness "00000000000000000000000000000000"

  type Md5 = seq<byte> -> HexDigest

  datatype CacheDir = Images | Videos | Documents

  /** A file directly inside one of the three cache directories. */
  datatype Path = Path(dir: CacheDir, name: string)

  type Files = map<Path, seq<byte>>

  /** `CACHE_DIRS` in its dict order: image, video, document. */
  const DirOrder: seq<CacheDir> := [Images, Videos, Documents]

  function DirName(d: CacheDir): string
  {
    match d
    case Images => "images"
    case Videos => "videos"
    case Documents => "documents"
  }

  function PathText(p: Path): string
  {
    "cache/media/" + DirName(p.dir) + "/" + p.name
  }

  const MimeTable: seq<(string, string)> := [
    ("image/jpeg", "image"), ("image/jpg", "image"), ("image/png", "image"),
    ("image/gif", "image"), ("image/webp", "image"),
    ("video/mp4", "video"), ("video/webm", "video"), ("video/quicktime", "video"),
    ("application/pdf", "document")
  ]

  const ExtTable: seq<(string, string)> := [
    (".jpg", "image"), (".jpeg", "image"), (".png", "image"), (".gif", "image"), (".webp", "image"),
    (".mp4", "video"), (".webm", "video"), (".mov", "video"),
    (".pdf", "document")
  ]

  predicate IsMediaType(t: string)
  {
    t == "image" || t == "video" || t == "document"
  }

  /** `table.get(key)` on a dict written as its list of entries. */
  function Lookup(table: seq<(string, string)>, key: string): (r: Option<string>)
    ensures r.None? <==> forall i :: 0 <= i < |table| ==> table[i].0 != key
    ensures r.Some? ==> exists i :: 0 <= i < |table| && table[i] == (key, r.value)
  {
    if table == [] then None
    else if table[0].0 == key then Some(table[0].1)
    else Lookup(table[1..], key)
  }

  lemma TablesMapToMediaTypes(k: string)
    ensures Lookup(MimeTable, k).Some? ==> IsMediaType(Lookup(MimeTable, k).value)
    ensures Lookup(ExtTable, k).Some? ==> IsMediaType(Lookup(ExtTable, k).value)
  {
  }

  // ---------------------------------------------------------------------
  // urlparse(url).path
  // ---------------------------------------------------------------------

  predicate IsAsciiAlpha(c: char)
  {
    ('a' <= c <= 'z') || ('A' <= c <= 'Z')
  }

  predicate IsSchemeChar(c: char)
  {
    IsAsciiAlpha(c) || ('0' <= c <= '9') || c == '+' || c == '-' || c == '.'
  }

  /** Schemes for which `urlparse` splits `;params` off the last path segment. */
  const UsesParams: set<string> := {"", "ftp", "hdl", "prospero", "http", "imap", "https", "shttp",
                                    "rtsp", "rtspu", "sip", "sips", "mms", "sftp", "tel"}

  /** The scheme (lower-cased) and the rest of the URL, as `urlsplit` separates them. */
  function SplitScheme(url: string): (r: (string, string))
    ensures r.0 == "" ==> r.1 == url
    ensures r.0 != "" ==> |r.0| < |url| && url[|r.0|] == ':' && r.1 == url[|r.0| + 1..]
                          && r.0 == Lower(url[..|r.0|])
  {
    var i := IndexOf(url, ':');
    if 0 < i < |url| && IsAsciiAlpha(url[0]) && (forall k :: 0 <= k < i ==> IsSchemeChar(url[k])) then
      (Lower(url[..i]), url[i + 1..])
    else ("", url)
  }

  function LastIndexOf(s: string, c: char): (i: int)
    ensures -1 <= i < |s|
    ensures i >= 0 ==> s[i] == c
    ensures forall k :: i < k < |s| ==> s[k] != c
  {
    if s == [] then -1
    else if s[|s| - 1] == c then |s| - 1
    else LastIndexOf(s[..|s| - 1], c)
  }

  /** `_splitparams`: cut at the first `;` that follows the last `/`. */
  function StripParams(s: string): (r: string)
    ensures StartsWith(s, r)
  {
    var l := LastIndexOf(s, '/');
    var from := if l < 0 then 0 else l;
    s[..from + IndexOf(s[from..], ';')]
  }

  /** `urlparse(url).path`: after the scheme and `//netloc`, before `#`, `?` and `;params`.
      `urlsplit` first strips leading and trailing C0 controls and spaces and removes tab, CR
      and LF anywhere; that cleaning is not modelled, so `url` stands for the cleaned text. */
  function UrlPath(url: string): (path: string)
    ensures '?' !in path && '#' !in path
  {
    var (scheme, rest) := SplitScheme(url);
    var afterNetloc :=
      if StartsWith(rest, "//") then rest[2 + IndexOfAny(rest[2..], {'/', '?', '#'})..] else rest;
    var noFragment := BeforeFirst(afterNetloc, '#');
    var noQuery := BeforeFirst(noFragment, '?');
    var path := if scheme in UsesParams && ';' in noQuery then StripParams(noQuery) else noQuery;
    assert '?' !in path && '#' !in path by {
      BeforeFirstFacts(afterNetloc, '#');
      BeforeFirstFacts(noFragment, '?');
      PrefixKeepsOut(afterNetloc, noFragment, '#');
      PrefixKeepsOut(noQuery, path, '?');
      PrefixKeepsOut(noQuery, path, '#');
    }
    path
  }

  /** A prefix of a text without `c` has no `c` either. */
  lemma PrefixKeepsOut(s: string, prefix: string, c: char)
    requires StartsWith(s, prefix)
    ensures c !in s ==> c !in prefix
  {
    if c in prefix {
      var k :| 0 <= k < |prefix| && prefix[k] == c;
      assert s[k] == c;
    }
  }

  // ---------------------------------------------------------------------
  // Classification
  // ---------------------------------------------------------------------

  /** Index of the first table entry whose key occurs in `text`, or `|table|`. */
  function FirstKeyIn(text: string, table: seq<(string, string)>): (i: nat)
    ensures i <= |table|
    ensures i < |table| ==> Contains(text, table[i].0)
    ensures forall j :: 0 <= j < i ==> !Contains(text, table[j].0)
  {
    if table == [] then 0
    else if Contains(text, table[0].0) then 0
    else 1 + FirstKeyIn(text, table[1..])
  }

  /** The first extension, in table order, that occurs in `path`; `.bin` when none does. */
  function ExtensionIn(path: string): (ext: string)
    ensures ext == ".bin" <==> forall j :: 0 <= j < |ExtTable| ==> !Contains(path, ExtTable[j].0)
    ensures ext != ".bin" ==>
      exists i :: 0 <= i < |ExtTable| && ExtTable[i].0 == ext && Contains(path, ext)
                  && forall j :: 0 <= j < i ==> !Contains(path, ExtTable[j].0)
  {
    var i := FirstKeyIn(path, ExtTable);
    if i < |ExtTable| then ExtTable[i].0 else ".bin"
  }

  /** `get_extension_from_url`: the extension found in the URL's lower-cased path. */
  function ExtensionFromUrl(url: string): string
  {
    ExtensionIn(Lower(UrlPath(url)))
  }

  lemma ExtensionIsKnownOrBin(path: string)
    ensures ExtensionIn(path) == ".bin" || Lookup(ExtTable, ExtensionIn(path)).Some?
  {
  }

  /** `EXT_TO_MEDIA_TYPE.get(ext)`, with `image` for an extension the table does not list. */
  function TypeOfExt(ext: string): (t: string)
    ensures IsMediaType(t)
    ensures Lookup(ExtTable, ext).None? ==> t == "image"
  {
    TablesMapToMediaTypes(ext);
    match Lookup(ExtTable, ext)
    case Some(t) => t
    case None => "image"
  }

  /** `detect_media_type`: the MIME table, then the extension's type, then `image`. */
  function DetectMediaType(url: string, mime: Option<string>): (t: string)
    ensures IsMediaType(t)
    ensures mime.Some? && Lookup(MimeTable, mime.value).Some? ==> t == Lookup(MimeTable, mime.value).value
    ensures mime.None? || Lookup(MimeTable, mime.value).None? ==> t == TypeOfExt(ExtensionFromUrl(url))
  {
    if mime.Some? && mime.value != [] && Lookup(MimeTable, mime.value).Some? then
      TablesMapToMediaTypes(mime.value);
      Lookup(MimeTable, mime.value).value
    else
      TypeOfExt(ExtensionFromUrl(url))
  }

  /** `CACHE_DIRS.get(media_type, CACHE_DIRS['image'])`. */
  function DirFor(mediaType: string): (d: CacheDir)
    ensures mediaType == "video" <==> d == Videos
    ensures mediaType == "document" <==> d == Documents
  {
    if mediaType == "video" then Videos
    else if mediaType == "document" then Documents
    else Images
  }

  /** `get_media_cache_path`: the digest followed by the extension, in the type's directory. */
  function CachePath(mediaType: string, digest: HexDigest, ext: string): (p: Path)
    ensures |p.name| == 32 + |ext| && p.name[..32] == digest && p.name[32..] == ext
    ensures IsMediaType(mediaType) ==> PathText(p) == "cache/media/" + mediaType + "s/" + digest + ext
    ensures !IsMediaType(mediaType) ==> p.dir == Images
  {
    Path(DirFor(mediaType), digest + ext)
  }

  /** Two cache paths coincide only for the same directory, digest and extension. */
  lemma CachePathInjective(t1: string, d1: HexDigest, e1: string, t2: string, d2: HexDigest, e2: string)
    requires CachePath(t1, d1, e1) == CachePath(t2, d2, e2)
    ensures DirFor(t1) == DirFor(t2) && d1 == d2 && e1 == e2
  {
    var n := CachePath(t1, d1, e1).name;
    assert d1 == n[..32] == d2;
    assert e1 == n[32..] == e2;
  }

  /** The Content-Type hint: the text before the first `;`, stripped, with `""` read as absent. */
  function ContentTypeHint(header: Option<string>): (mime: Option<string>)
    ensures mime.Some? ==> mime.value != [] && ';' !in mime.value && Strip(mime.value) == mime.value
    ensures mime.None? <==> Strip(BeforeFirst(if header.Some? then header.value else "", ';')) == []
  {
    var before := BeforeFirst(if header.Some? then header.value else "", ';');
    BeforeFirstFacts(if header.Some? then header.value else "", ';');
    StripChars(before);
    StripIdempotent(before);
    var m := Strip(before);
    if m == [] then None else Some(m)
  }

  // ---------------------------------------------------------------------
  // Put: download_and_cache_media
  // ---------------------------------------------------------------------

  datatype Response = Response(body: seq<byte>, contentType: Option<string>)

  /** What the environment does for one call: the fetch, whether opening the cache file
      for writing succeeds, and the image size the optional image library reports. */
  datatype Download = Download(url: string, fetch: Result<Response>, writeOk: bool,
                               dims: Option<(int, int)>)

  /** The metadata dictionary returned for a cached file. */
  datatype CachedMedia = CachedMedia(
    md5Sum: HexDigest, localPath: Path, fileSize: nat, mimeType: Option<string>,
    mediaType: string, width: Option<int>, height: Option<int>, extension: string, url: string)

  datatype PutOutcome = PutOutcome(result: Result<CachedMedia>, files: Files)

  /** `verify_cached_media`: the file exists and its digest is the expected one. */
  predicate VerifiedAt(files: Files, md5: Md5, p: Path, expected: string)
  {
    p in files && md5(files[p]) == expected
  }

  /** The media type a put uses: the caller's, unless absent or empty. */
  function ResolveType(url: string, override: Option<string>, mime: Option<string>): (t: string)
    ensures override.Some? && override.value != [] ==> t == override.value
    ensures (override.None? || override.value == []) ==> IsMediaType(t)
  {
    if override.Some? && override.value != [] then override.value else DetectMediaType(url, mime)
  }

  function Meta(digest: HexDigest, p: Path, size: nat, mime: Option<string>, t: string,
                dims: Option<(int, int)>, ext: string, url: string): CachedMedia
  {
    var d := if t == "image" then dims else None;
    CachedMedia(digest, p, size, mime, t,
                if d.Some? then Some(d.value.0) else None,
                if d.Some? then Some(d.value.1) else None, ext, url)
  }

  /** The classification half of a put: Content-Type hint, digest, media type, extension and
      the cache path they determine. */
  datatype Plan = Plan(mime: Option<string>, digest: HexDigest, mediaType: string, ext: string, path: Path)

  function PlanFor(md5: Md5, url: string, override: Option<string>, resp: Response): Plan
  {
    var mime := ContentTypeHint(resp.contentType);
    var digest := md5(resp.body);
    var t := ResolveType(url, override, mime);
    var ext := ExtensionFromUrl(url);
    Plan(mime, digest, t, ext, CachePath(t, digest, ext))
  }

  /** A plan whose path is the one `get_media_cache_path` gives for its type, digest and extension. */
  predicate Planned(plan: Plan)
  {
    plan.path == CachePath(plan.mediaType, plan.digest, plan.ext)
  }

  /** The storage half of a put: reuse a verified copy, otherwise (after deleting a corrupted
      copy) write the downloaded bytes. */
  function Store(files: Files, md5: Md5, plan: Plan, body: seq<byte>, writeOk: bool,
                 dims: Option<(int, int)>, url: string): (out: PutOutcome)
    // every successful return names a file whose digest is the reported one
    ensures md5(body) == plan.digest && out.result.Ok? ==>
      && VerifiedAt(out.files, md5, out.result.value.localPath, out.result.value.md5Sum)
      && out.result.value.localPath == plan.path && out.result.value.md5Sum == plan.digest
    // only the plan's path changes
    ensures forall q :: q != plan.path ==>
      (q in out.files <==> q in files) && (q in files ==> out.files[q] == files[q])
    // a verified copy is reused as it is
    ensures VerifiedAt(files, md5, plan.path, plan.digest) ==>
      out.files == files && out.result.Ok? && out.result.value.fileSize == |files[plan.path]|
    // otherwise the bytes are written, or the path is left empty and the error raised
    ensures !VerifiedAt(files, md5, plan.path, plan.digest) && writeOk ==>
      out.files == files[plan.path := body] && out.result.Ok? && out.result.value.fileSize == |body|
    ensures !VerifiedAt(files, md5, plan.path, plan.digest) && !writeOk ==>
      out.files == files - {plan.path} && out.result.Err?
  {
    var p := plan.path;
    if VerifiedAt(files, md5, p, plan.digest) then
      PutOutcome(Ok(Meta(plan.digest, p, |files[p]|, plan.mime, plan.mediaType, dims, plan.ext, url)), files)
    else if !writeOk then
      PutOutcome(Err("cannot write " + PathText(p)), files - {p})
    else
      PutOutcome(Ok(Meta(plan.digest, p, |body|, plan.mime, plan.mediaType, dims, plan.ext, url)),
                 files[p := body])
  }

  /** The plan of a download (of its empty body when the fetch failed, where it is not used). */
  function PlanOf(md5: Md5, d: Download, override: Option<string>): Plan
  {
    PlanFor(md5, d.url, override, if d.fetch.Ok? then d.fetch.value else Response([], None))
  }

  /** A plan that fits a download: a cache path, and the digest of the downloaded bytes. */
  ghost predicate Fits(md5: Md5, d: Download, plan: Plan)
  {
    Planned(plan) && (d.fetch.Ok? ==> plan.digest == md5(d.fetch.value.body))
  }

  lemma PlanOfFits(md5: Md5, d: Download, override: Option<string>)
    ensures Fits(md5, d, PlanOf(md5, d, override))
  {
  }

  /** One put with its plan: a failed download changes nothing and is re-raised; otherwise store. */
  function Step(files: Files, md5: Md5, d: Download, plan: Plan): PutOutcome
  {
    match d.fetch
    case Err(e) => PutOutcome(Err(e), files)
    case Ok(resp) => Store(files, md5, plan, resp.body, d.writeOk, d.dims, d.url)
  }

  /** The outcome of `download_and_cache_media` on the cache `files`. */
  function Put(files: Files, md5: Md5, d: Download, override: Option<string>): PutOutcome
  {
    Step(files, md5, d, PlanOf(md5, d, override))
  }

  /** Storing the same bytes under the same plan twice: the second store finds the first's file
      and changes nothing. */
  lemma StoreIdempotent(files: Files, md5: Md5, plan: Plan, body: seq<byte>, w1: bool, w2: bool,
                        dims: Option<(int, int)>, url: string)
    requires md5(body) == plan.digest
    requires Store(files, md5, plan, body, w1, dims, url).result.Ok?
    ensures var once := Store(files, md5, plan, body, w1, dims, url);
      && Store(once.files, md5, plan, body, w2, dims, url).files == once.files
      && Store(once.files, md5, plan, body, w2, dims, url).result.Ok?
  {
  }

  /** Dedup: identical bytes classified to the same directory and extension share one path, and
      storing them again leaves the cache as it was. */
  lemma StoreDedup(files: Files, md5: Md5, p1: Plan, p2: Plan, body: seq<byte>, w1: bool, w2: bool,
                   dims: Option<(int, int)>, u1: string, u2: string)
    requires Planned(p1) && Planned(p2) && md5(body) == p1.digest && md5(body) == p2.digest
    requires DirFor(p1.mediaType) == DirFor(p2.mediaType) && p1.ext == p2.ext
    requires Store(files, md5, p1, body, w1, dims, u1).result.Ok?
    ensures p1.path == p2.path
    ensures var first := Store(files, md5, p1, body, w1, dims, u1);
      Store(first.files, md5, p2, body, w2, dims, u2).files == first.files
  {
  }

  /** The limit of the dedup: different extensions give different paths for the same bytes. */
  lemma StoreDedupLimit(p1: Plan, p2: Plan)
    requires Planned(p1) && Planned(p2) && p1.ext != p2.ext
    ensures p1.path != p2.path
  {
    if p1.path == p2.path {
      CachePathInjective(p1.mediaType, p1.digest, p1.ext, p2.mediaType, p2.digest, p2.ext);
    }
  }

  /** A file whose content matches the digest in its name survives any later put. */
  lemma StepKeepsVerified(files: Files, md5: Md5, d: Download, plan: Plan, q: Path)
    requires Fits(md5, d, plan)
    requires |q.name| >= 32 && VerifiedAt(files, md5, q, q.name[..32])
    ensures q in Step(files, md5, d, plan).files
    ensures Step(files, md5, d, plan).files[q] == files[q]
  {
    if d.fetch.Ok? && plan.path == q {
      assert q.name[..32] == plan.digest;
    }
  }

  /** A reported file: named after its digest, present, and holding bytes with that digest. */
  ghost predicate Intact(files: Files, md5: Md5, m: CachedMedia)
  {
    |m.localPath.name| >= 32 && m.localPath.name[..32] == m.md5Sum
    && VerifiedAt(files, md5, m.localPath, m.md5Sum)
  }

  /** After any successful put, the reported file is intact, at the plan's path, and named after
      the digest of the downloaded bytes. */
  lemma StepSound(files: Files, md5: Md5, d: Download, plan: Plan)
    requires Fits(md5, d, plan)
    ensures var out := Step(files, md5, d, plan);
      out.result.Ok? ==>
        && d.fetch.Ok? && out.result.value.md5Sum == md5(d.fetch.value.body)
        && out.result.value.localPath == plan.path
        && Intact(out.files, md5, out.result.value)
  {
  }

  // ---------------------------------------------------------------------
  // download_multiple_media, as a sequential loop
  // ---------------------------------------------------------------------

  /** The downloads of a batch, each with its plan. */
  function Jobs(md5: Md5, ds: seq<Download>): (js: seq<(Download, Plan)>)
    ensures |js| == |ds|
  {
    JobsOf(ds, d => PlanOf(md5, d, None))
  }

  /** Each download paired with the plan `plan` makes for it. */
  function JobsOf(ds: seq<Download>, plan: Download -> Plan): (js: seq<(Download, Plan)>)
    ensures |js| == |ds|
  {
    if ds == [] then [] else [(ds[0], plan(ds[0]))] + JobsOf(ds[1..], plan)
  }

  /** Plans that fit every download give jobs that fit. */
  lemma {:induction false} JobsOfFit(md5: Md5, ds: seq<Download>, plan: Download -> Plan)
    requires forall d :: Fits(md5, d, plan(d))
    ensures var js := JobsOf(ds, plan);
      forall i :: 0 <= i < |ds| ==> js[i].0 == ds[i] && Fits(md5, ds[i], js[i].1)
  {
    if ds != [] {
      JobsOfFit(md5, ds[1..], plan);
      var js := JobsOf(ds, plan);
      forall i | 1 <= i < |ds| ensures js[i].0 == ds[i] && Fits(md5, ds[i], js[i].1) {
        assert js[i] == JobsOf(ds[1..], plan)[i - 1] && ds[1..][i - 1] == ds[i];
      }
    }
  }

  /** Each job of a batch is its download with a plan that fits it. */
  lemma JobsFit(md5: Md5, ds: seq<Download>)
    ensures var js := Jobs(md5, ds);
      forall i :: 0 <= i < |ds| ==> js[i].0 == ds[i] && Fits(md5, ds[i], js[i].1)
  {
    var plan := d => PlanOf(md5, d, None);
    forall d ensures Fits(md5, d, plan(d)) {
      PlanOfFits(md5, d, None);
    }
    JobsOfFit(md5, ds, plan);
  }

  /** A successful put contributes its record; a failed one nothing. */
  function Emitted(r: Result<CachedMedia>): seq<CachedMedia>
  {
    if r.Ok? then [r.value] else []
  }

  /** The results (successes only, in order) and final cache of running each job in turn. */
  function PutAll(files: Files, md5: Md5, js: seq<(Download, Plan)>): (r: (seq<CachedMedia>, Files))
    ensures |r.0| <= |js|
    decreases |js|
  {
    if js == [] then ([], files)
    else
      var o := Step(files, md5, js[0].0, js[0].1);
      var rest := PutAll(o.files, md5, js[1..]);
      (Emitted(o.result) + rest.0, rest.1)
  }

  /** One step of `PutAll`: the first job's outcome, then the rest from the cache it left. */
  lemma PutAllCons(files: Files, md5: Md5, js: seq<(Download, Plan)>)
    requires js != []
    ensures var o := Step(files, md5, js[0].0, js[0].1);
      PutAll(files, md5, js) == (Emitted(o.result) + PutAll(o.files, md5, js[1..]).0, PutAll(o.files, md5, js[1..]).1)
  {
  }

  ghost predicate AllIntact(files: Files, md5: Md5, results: seq<CachedMedia>)
  {
    forall m :: m in results ==> Intact(files, md5, m)
  }

  ghost predicate AllFit(md5: Md5, js: seq<(Download, Plan)>)
  {
    forall i :: 0 <= i < |js| ==> Fits(md5, js[i].0, js[i].1)
  }

  /** Every reported file is still intact once the whole batch has run. */
  lemma {:induction false} PutAllResultsIntact(files: Files, md5: Md5, js: seq<(Download, Plan)>,
                                               earlier: seq<CachedMedia>)
    requires AllFit(md5, js) && AllIntact(files, md5, earlier)
    ensures AllIntact(PutAll(files, md5, js).1, md5, earlier + PutAll(files, md5, js).0)
    decreases |js|
  {
    if js != [] {
      var o := Step(files, md5, js[0].0, js[0].1);
      var mine := Emitted(o.result);
      var rest := PutAll(o.files, md5, js[1..]);
      StepIntact(files, md5, js[0].0, js[0].1, earlier);
      AllFitTail(md5, js);
      PutAllResultsIntact(o.files, md5, js[1..], earlier + mine);
      PutAllCons(files, md5, js);
      AppendAssoc(earlier, mine, rest.0);
    }
  }

  /** One step keeps the earlier results intact and adds an intact one, if any. */
  lemma StepIntact(files: Files, md5: Md5, d: Download, plan: Plan, earlier: seq<CachedMedia>)
    requires Fits(md5, d, plan) && AllIntact(files, md5, earlier)
    ensures var o := Step(files, md5, d, plan);
      AllIntact(o.files, md5, earlier + Emitted(o.result))
  {
    var o := Step(files, md5, d, plan);
    forall m | m in earlier ensures Intact(o.files, md5, m) {
      StepKeepsVerified(files, md5, d, plan, m.localPath);
    }
    StepSound(files, md5, d, plan);
  }

  lemma AllFitTail(md5: Md5, js: seq<(Download, Plan)>)
    requires js != [] && AllFit(md5, js)
    ensures Fits(md5, js[0].0, js[0].1) && AllFit(md5, js[1..])
  {
    forall i | 0 <= i < |js[1..]| ensures Fits(md5, js[1..][i].0, js[1..][i].1) {
      assert js[1..][i] == js[i + 1];
    }
  }

  /** Counts the successful steps of a batch. */
  function Successes(files: Files, md5: Md5, js: seq<(Download, Plan)>): nat
    decreases |js|
  {
    if js == [] then 0
    else
      var o := Step(files, md5, js[0].0, js[0].1);
      (if o.result.Ok? then 1 else 0) + Successes(o.files, md5, js[1..])
  }

  /** Failures are dropped: one result per successful put, each for a URL of the batch. */
  lemma {:induction false} PutAllKeepsSuccesses(files: Files, md5: Md5, js: seq<(Download, Plan)>)
    ensures |PutAll(files, md5, js).0| == Successes(files, md5, js)
    ensures forall m :: m in PutAll(files, md5, js).0 ==> exists i :: 0 <= i < |js| && m.url == js[i].0.url
    decreases |js|
  {
    if js != [] {
      var o := Step(files, md5, js[0].0, js[0].1);
      PutAllKeepsSuccesses(o.files, md5, js[1..]);
      forall m | m in PutAll(files, md5, js).0 ensures exists i :: 0 <= i < |js| && m.url == js[i].0.url {
        if !(o.result.Ok? && m == o.result.value) {
          var i :| 0 <= i < |js[1..]| && m.url == js[1..][i].0.url;
          assert js[1..][i] == js[i + 1];
        }
      }
    }
  }

  // ---------------------------------------------------------------------
  // UTF-8, for the legacy URL-keyed lookup
  // ---------------------------------------------------------------------

  function EncodeChar(c: char): (r: seq<byte>)
    ensures 1 <= |r| <= 4
    ensures c as int < 128 <==> |r| == 1
    ensures |r| == 1 ==> r[0] as int == c as int
  {
    var n := c as int;
    if n < 0x80 then [n as byte]
    else if n < 0x800 then [(0xC0 + n / 64) as byte, (0x80 + n % 64) as byte]
    else if n < 0x10000 then
      [(0xE0 + n / 4096) as byte, (0x80 + (n / 64) % 64) as byte, (0x80 + n % 64) as byte]
    else
      [(0xF0 + n / 262144) as byte, (0x80 + (n / 4096) % 64) as byte,
       (0x80 + (n / 64) % 64) as byte, (0x80 + n % 64) as byte]
  }

  /** `s.encode('utf-8')`. */
  function Utf8(s: string): (r: seq<byte>)
    ensures |r| >= |s|
    ensures (forall i :: 0 <= i < |s| ==> s[i] as int < 128) ==>
      |r| == |s| && forall i :: 0 <= i < |s| ==> r[i] as int == s[i] as int
  {
    if s == [] then [] else EncodeChar(s[0]) + Utf8(s[1..])
  }

  // ---------------------------------------------------------------------
  // The cache as a mutable object
  // ---------------------------------------------------------------------

  /** A file name the glob `<digest>.*` matches. */
  predicate MatchesDigest(name: string, digest: string)
  {
    StartsWith(name, digest + ".")
  }

  function DirRank(d: CacheDir): nat
  {
    match d
    case Images => 0
    case Videos => 1
    case Documents => 2
  }

  /** The files `get_cache_stats` counts in one directory (all but `.gitkeep`). */
  function Listed(files: Files, d: CacheDir): set<Path>
  {
    set p | p in files && p.dir == d && p.name != ".gitkeep"
  }

  ghost function TotalSize(files: Files, ps: set<Path>): nat
    requires ps <= files.Keys
    decreases ps
  {
    if ps == {} then 0 else var p :| p in ps; |files[p]| + TotalSize(files, ps - {p})
  }

  /** The sum does not depend on which element is taken out first. */
  lemma {:induction false} TotalSizeRemove(files: Files, ps: set<Path>, p: Path)
    requires ps <= files.Keys && p in ps
    ensures TotalSize(files, ps) == |files[p]| + TotalSize(files, ps - {p})
    decreases ps
  {
    var q :| q in ps && TotalSize(files, ps) == |files[q]| + TotalSize(files, ps - {q});
    if q != p {
      TotalSizeRemove(files, ps - {q}, p);
      TotalSizeRemove(files, ps - {p}, q);
      assert ps - {q} - {p} == ps - {p} - {q};
    }
  }

  datatype DirStats = DirStats(count: nat, size: nat)
  datatype CacheStats = CacheStats(totalFiles: nat, totalSize: nat, byType: map<string, DirStats>)

  function TypeName(d: CacheDir): string
  {
    match d
    case Images => "image"
    case Videos => "video"
    case Documents => "document"
  }

  class Cache {
    var files: Files
    const md5: Md5

    constructor(md5: Md5)
      ensures this.md5 == md5 && files == map[]
    {
      this.md5 := md5;
      files := map[];
    }

    /** `download_and_cache_media`: classify the download, then store it. */
    method DownloadAndCache(d: Download, override: Option<string>) returns (r: Result<CachedMedia>)
      modifies this
      ensures PutOutcome(r, files) == Put(old(files), md5, d, override)
    {
      var plan := PlanOf(md5, d, override);
      r := StoreDownload(d, plan);
    }

    /** The storage steps of a put: reuse a verified copy, or delete a corrupted one and write. */
    method StoreDownload(d: Download, plan: Plan) returns (r: Result<CachedMedia>)
      modifies this
      ensures PutOutcome(r, files) == Step(old(files), md5, d, plan)
    {
      if d.fetch.Err? {
        return Err(d.fetch.error);
      }
      var body := d.fetch.value.body;
      var p := plan.path;
      if p in files {
        if md5(files[p]) == plan.digest {
          return Ok(Meta(plan.digest, p, |files[p]|, plan.mime, plan.mediaType, d.dims, plan.ext, d.url));
        }
        files := files - {p};
      }
      if !d.writeOk {
        return Err("cannot write " + PathText(p));
      }
      files := files[p := body];
      r := Ok(Meta(plan.digest, p, |body|, plan.mime, plan.mediaType, d.dims, plan.ext, d.url));
    }

    /** `download_multiple_media`: every download is attempted; only successes are returned,
        and each returned file is intact at the end of the batch. */
    method DownloadMultiple(ds: seq<Download>) returns (results: seq<CachedMedia>)
      modifies this
      ensures (results, files) == PutAll(old(files), md5, Jobs(md5, ds))
      ensures |results| <= |ds|
      ensures forall m :: m in results ==> Intact(files, md5, m)
    {
      ghost var before := files;
      var js := Jobs(md5, ds);
      JobsFit(md5, ds);
      assert AllFit(md5, js);
      PutAllResultsIntact(before, md5, js, []);
      results := RunJobs(js);
      assert results == PutAll(before, md5, js).0 && files == PutAll(before, md5, js).1;
      assert [] + results == results;
      assert AllIntact(files, md5, results);
    }

    /** The jobs run one after another against the cache. */
    method RunJobs(js: seq<(Download, Plan)>) returns (results: seq<CachedMedia>)
      modifies this
      ensures (results, files) == PutAll(old(files), md5, js)
    {
      results := [];
      var i := 0;
      while i < |js|
        invariant 0 <= i <= |js|
        invariant results + PutAll(files, md5, js[i..]).0 == PutAll(old(files), md5, js).0
        invariant PutAll(files, md5, js[i..]).1 == PutAll(old(files), md5, js).1
      {
        PutAllCons(files, md5, js[i..]);
        assert js[i..][0] == js[i] && js[i..][1..] == js[i + 1..];
        ghost var next := Step(files, md5, js[i].0, js[i].1);
        var r := StoreDownload(js[i].0, js[i].1);
        AppendAssoc(results, Emitted(r), PutAll(next.files, md5, js[i + 1..]).0);
        results := results + Emitted(r);
        i := i + 1;
      }
      assert js[i..] == [];
      assert PutAll(files, md5, js[i..]) == ([], files);
      assert results + [] == results;
    }

    /** The file stream hashed chunk by chunk, as `calculate_md5` reads it. */
    method CalculateMd5(p: Path) returns (r: Result<HexDigest>)
      ensures p !in files ==> r.Err?
      ensures p in files ==> r == Ok(md5(files[p]))
    {
      if p !in files {
        return Err("File not found: " + PathText(p));
      }
      var data := files[p];
      var fed: seq<byte> := [];
      var pos := 0;
      while pos < |data|
        invariant 0 <= pos <= |data|
        invariant fed == data[..pos]
      {
        var n := if |data| - pos < 8192 then |data| - pos else 8192;
        fed := fed + data[pos..pos + n];
        pos := pos + n;
      }
      assert fed == data;
      r := Ok(md5(fed));
    }

    /** `find_cached_by_md5`: the first directory, in dict order, holding a `<digest>.*` file. */
    method FindByMd5(digest: string) returns (r: Option<Path>)
      ensures r.None? <==> forall p :: p in files ==> !MatchesDigest(p.name, digest)
      ensures r.Some? ==> r.value in files && MatchesDigest(r.value.name, digest)
      ensures r.Some? ==> forall p :: p in files && MatchesDigest(p.name, digest) ==>
        DirRank(r.value.dir) <= DirRank(p.dir)
    {
      var i := 0;
      while i < |DirOrder|
        invariant 0 <= i <= |DirOrder|
        invariant forall p :: p in files && MatchesDigest(p.name, digest) ==> DirRank(p.dir) >= i
      {
        var dir := DirOrder[i];
        assert DirRank(dir) == i;
        var hits := set p | p in files && p.dir == dir && MatchesDigest(p.name, digest);
        if hits != {} {
          var p :| p in hits;
          return Some(p);
        }
        forall p | p in files && MatchesDigest(p.name, digest)
          ensures DirRank(p.dir) > i
        {
          assert p !in hits;
        }
        i := i + 1;
      }
      return None;
    }

    /** `find_cached_by_url`: the same search, keyed by the MD5 of the URL's UTF-8 text. */
    method FindByUrl(url: string) returns (r: Option<Path>)
      ensures var digest := md5(Utf8(url));
        && (r.None? <==> forall p :: p in files ==> !MatchesDigest(p.name, digest))
        && (r.Some? ==> r.value in files && MatchesDigest(r.value.name, digest))
        && (r.Some? ==> forall p :: p in files && MatchesDigest(p.name, digest) ==>
              DirRank(r.value.dir) <= DirRank(p.dir))
    {
      r := FindByMd5(md5(Utf8(url)));
    }

    /** `get_cache_stats`: per-directory file counts and byte totals, and their sums. */
    method Stats() returns (s: CacheStats)
      ensures s == StatsOf(files, DirOrder)
      ensures forall d: CacheDir :: TypeName(d) in s.byType && s.byType[TypeName(d)] == DirStatsOf(files, d)
      ensures s.totalFiles == |Listed(files, Images)| + |Listed(files, Videos)| + |Listed(files, Documents)|
      ensures s.totalSize == TotalSize(files, Listed(files, Images)) + TotalSize(files, Listed(files, Videos))
                             + TotalSize(files, Listed(files, Documents))
    {
      s := CacheStats(0, 0, map[]);
      var i := 0;
      while i < |DirOrder|
        invariant 0 <= i <= |DirOrder|
        invariant s == StatsOf(files, DirOrder[..i])
      {
        var dir := DirOrder[i];
        var ds := DirSize(dir);
        assert DirOrder[..i + 1][..i] == DirOrder[..i];
        s := CacheStats(s.totalFiles + ds.count, s.totalSize + ds.size, s.byType[TypeName(dir) := ds]);
        i := i + 1;
      }
      assert DirOrder[..i] == DirOrder;
      StatsOfCacheDirs(files);
    }

    /** One directory of `get_cache_stats`: count and summed size of its listed files. */
    method DirSize(dir: CacheDir) returns (ds: DirStats)
      ensures ds == DirStatsOf(files, dir)
    {
      var left := Listed(files, dir);
      var count, size := 0, 0;
      while left != {}
        invariant left <= Listed(files, dir)
        invariant count + |left| == |Listed(files, dir)|
        invariant size + TotalSize(files, left) == TotalSize(files, Listed(files, dir))
        decreases left
      {
        var p :| p in left;
        TotalSizeRemove(files, left, p);
        count, size := count + 1, size + |files[p]|;
        left := left - {p};
      }
      ds := DirStats(count, size);
    }
  }

  ghost function DirStatsOf(files: Files, d: CacheDir): DirStats
  {
    DirStats(|Listed(files, d)|, TotalSize(files, Listed(files, d)))
  }

  /** The statistics accumulated over `dirs`, in order. */
  ghost function StatsOf(files: Files, dirs: seq<CacheDir>): CacheStats
  {
    if dirs == [] then CacheStats(0, 0, map[])
    else
      var s := StatsOf(files, dirs[..|dirs| - 1]);
      var ds := DirStatsOf(files, dirs[|dirs| - 1]);
      CacheStats(s.totalFiles + ds.count, s.totalSize + ds.size, s.byType[TypeName(dirs[|dirs| - 1]) := ds])
  }

  /** Over the three cache directories: one entry per media type, and totals that are the sums. */
  lemma StatsOfCacheDirs(files: Files)
    ensures var s := StatsOf(files, DirOrder);
      && (forall d: CacheDir :: TypeName(d) in s.byType && s.byType[TypeName(d)] == DirStatsOf(files, d))
      && s.totalFiles == |Listed(files, Images)| + |Listed(files, Videos)| + |Listed(files, Documents)|
      && s.totalSize == TotalSize(files, Listed(files, Images)) + TotalSize(files, Listed(files, Videos))
                        + TotalSize(files, Listed(files, Documents))
  {
    var im, vi, doc := DirStatsOf(files, Images), DirStatsOf(files, Videos), DirStatsOf(files, Documents);
    assert DirOrder[..2] == [Images, Videos];
    StatsOfFirstTwo(files);
    var s := StatsOf(files, DirOrder);
    assert s == CacheStats(im.count + vi.count + doc.count, im.size + vi.size + doc.size,
                           map["image" := im, "video" := vi, "document" := doc]);
  }

  lemma StatsOfFirstTwo(files: Files)
    ensures var im, vi := DirStatsOf(files, Images), DirStatsOf(files, Videos);
      StatsOf(files, [Images, Videos])
        == CacheStats(im.count + vi.count, im.size + vi.size, map["image" := im, "video" := vi])
  {
    var im := DirStatsOf(files, Images);
    assert [Images, Videos][..1] == [Images];
    assert [Images][..0] == [];
    assert StatsOf(files, [Images]) == CacheStats(im.count, im.size, map["image" := im]);
  }
}
