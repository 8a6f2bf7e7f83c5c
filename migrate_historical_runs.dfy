/**
 * Backfilling download runs from the dated directories `data/YYYYMMDD/linkedin`
 * (migrate_historical_runs.py).
 *
 * The local SQLite tables are values of type `Db`; `generate_aws_id` is an oracle giving the
 * id of the n-th draw, and the directory listing and the decoded JSON files are inputs.
 */
module MigrateHistoricalRuns {
  import opened Common
  import ManageData

  // ---------------------------------------------------------------------
  // Calendar dates and their eight-character names
  // ---------------------------------------------------------------------

  datatype Date = Date(year: nat, month: nat, day: nat)

  datatype DateTime = DateTime(date: Date, hour: nat, minute: nat, second: nat)

  /** The date at `hour`:00:00, as `date_obj.replace(hour=..., minute=0, second=0)`. */
  function At(d: Date, hour: nat): DateTime
  {
    DateTime(d, hour, 0, 0)
  }

  predicate Leap(y: nat)
  {
    y % 4 == 0 && (y % 100 != 0 || y % 400 == 0)
  }

  function DaysIn(y: nat, m: nat): (n: nat)
    requires 1 <= m <= 12
    ensures 28 <= n <= 31
  {
    if m == 2 then (if Leap(y) then 29 else 28)
    else if m == 4 || m == 6 || m == 9 || m == 11 then 30
    else 31
  }

  /** A date `datetime` accepts. */
  predicate ValidDate(d: Date)
  {
    d.year >= 1 && 1 <= d.month <= 12 && 1 <= d.day <= DaysIn(d.year, d.month)
  }

  /** Chronological order. */
  predicate DateLe(a: Date, b: Date)
  {
    a.year < b.year || (a.year == b.year && (a.month < b.month || (a.month == b.month && a.day <= b.day)))
  }

  /** `%d` on the two characters left after `%Y%m` in an eight-character name: `3[01]`,
      `[12]\d` or `0[1-9]`, or a space and a digit; a single digit would leave one character
      unconverted. */
  function DayField(s: string): (r: Option<nat>)
    requires |s| == 2
    ensures r.Some? ==> 1 <= r.value <= 31
  {
    if AllDigits(s) && 1 <= DigitsValue(s) <= 31 then Some(DigitsValue(s))
    else if s[0] == ' ' && '1' <= s[1] <= '9' then Some(s[1] as int - '0' as int)
    else None
  }

  /** `datetime.strptime(name, "%Y%m%d")` on an eight-character name: four digits, a month
      `1[0-2]` or `0[1-9]` (a one-digit month leaves the day too short), a day as `DayField`
      reads it, and a date `datetime` accepts (year 0 and the 30th of February raise). */
  function ParseDateName(s: string): (r: Option<Date>)
    ensures r.Some? ==> |s| == 8 && ValidDate(r.value)
  {
    if |s| != 8 || !AllDigits(s[..4]) || !AllDigits(s[4..6]) then None
    else
      var y := DigitsValue(s[..4]);
      var m := DigitsValue(s[4..6]);
      var d := DayField(s[6..]);
      if y == 0 || m < 1 || 12 < m || d.None? || d.value > DaysIn(y, m) then None
      else Some(Date(y, m, d.value))
  }

  /** The `YYYYMMDD` name of a date. */
  function DateName(d: Date): (s: string)
    ensures |s| == 8 && AllDigits(s)
  {
    Pad(d.year, 4) + Pad(d.month, 2) + Pad(d.day, 2)
  }

  /** Every valid date of a four-digit year has a name, and the name reads back as that date. */
  lemma DateNameRoundTrip(d: Date)
    requires ValidDate(d) && d.year < 10000
    ensures ParseDateName(DateName(d)) == Some(d)
  {
    var s := DateName(d);
    assert s[..4] == Pad(d.year, 4) && s[4..6] == Pad(d.month, 2) && s[6..] == Pad(d.day, 2);
    PadValue(d.year, 4);
    PadValue(d.month, 2);
    PadValue(d.day, 2);
  }

  /** A name of eight digits that parses is the name of its date. */
  lemma NameOfParsedDate(s: string)
    requires ParseDateName(s).Some? && AllDigits(s)
    ensures DateName(ParseDateName(s).value) == s
  {
    var d := ParseDateName(s).value;
    assert AllDigits(s[6..]);
    PadOfValue(s[..4]);
    PadOfValue(s[4..6]);
    PadOfValue(s[6..]);
    assert s == s[..4] + s[4..6] + s[6..];
  }

  // ---------------------------------------------------------------------
  // Name order and chronological order
  // ---------------------------------------------------------------------

  lemma {:induction false} DigitsValueBound(s: string)
    requires AllDigits(s)
    ensures DigitsValue(s) < Pow10(|s|)
    decreases |s|
  {
    if s != [] {
      DigitsValueBound(s[..|s| - 1]);
    }
  }

  lemma {:induction false} DigitsValueAppend(s: string, t: string)
    requires AllDigits(s) && AllDigits(t)
    ensures AllDigits(s + t) && DigitsValue(s + t) == DigitsValue(s) * Pow10(|t|) + DigitsValue(t)
    decreases |t|
  {
    if t == [] {
      assert s + t == s;
    } else {
      var t' := t[..|t| - 1];
      assert AllDigits(t');
      DigitsValueAppend(s, t');
      var d := t[|t| - 1] as int - '0' as int;
      assert AllDigits(s + t) && DigitsValue(s + t) == DigitsValue(s + t') * 10 + d by {
        assert (s + t)[..|s + t| - 1] == s + t';
        assert (s + t)[|s + t| - 1] == t[|t| - 1];
      }
      assert DigitsValue(t) == DigitsValue(t') * 10 + d;
      Regroup(DigitsValue(s), Pow10(|t'|), DigitsValue(t'), d);
    }
  }

  lemma Regroup(a: int, p: int, b: int, d: int)
    ensures (a * p + b) * 10 + d == a * (10 * p) + (b * 10 + d)
  {
  }

  lemma DigitsValueFront(s: string)
    requires AllDigits(s) && s != []
    ensures DigitsValue(s) == (s[0] as int - '0' as int) * Pow10(|s| - 1) + DigitsValue(s[1..])
  {
    assert s == [s[0]] + s[1..];
    DigitsValueAppend([s[0]], s[1..]);
    assert [s[0]][..0] == [];
  }

  /** A smaller leading digit gives a smaller number, whatever the digits after it. */
  lemma LeadingDigit(x: nat, y: nat, p: nat, r: nat, q: nat)
    requires x < y && r < p
    ensures x * p + r < y * p + q
  {
    assert (x + 1) * p <= y * p;
  }

  /** On digit strings of one length, string order is numeric order. */
  lemma {:induction false} LexLeDigits(a: string, b: string)
    requires |a| == |b| && AllDigits(a) && AllDigits(b)
    ensures LexLe(a, b) <==> DigitsValue(a) <= DigitsValue(b)
    decreases |a|
  {
    if a != [] {
      DigitsValueFront(a);
      DigitsValueFront(b);
      var da: nat := a[0] as int - '0' as int;
      var db: nat := b[0] as int - '0' as int;
      if a[0] == b[0] {
        LexLeDigits(a[1..], b[1..]);
      } else if a[0] < b[0] {
        DigitsValueBound(a[1..]);
        LeadingDigit(da, db, Pow10(|a| - 1), DigitsValue(a[1..]), DigitsValue(b[1..]));
      } else {
        DigitsValueBound(b[1..]);
        LeadingDigit(db, da, Pow10(|a| - 1), DigitsValue(b[1..]), DigitsValue(a[1..]));
      }
    }
  }

  function DateKey(d: Date): nat
  {
    d.year * 10000 + d.month * 100 + d.day
  }

  lemma DateKeyOrder(a: Date, b: Date)
    requires ValidDate(a) && ValidDate(b)
    ensures DateKey(a) <= DateKey(b) <==> DateLe(a, b)
  {
  }

  lemma NameValue(s: string)
    requires ParseDateName(s).Some? && AllDigits(s)
    ensures DigitsValue(s) == DateKey(ParseDateName(s).value)
  {
    assert s[..6] == s[..4] + s[4..6];
    assert s == s[..6] + s[6..];
    assert AllDigits(s[6..]);
    DigitsValueAppend(s[..4], s[4..6]);
    DigitsValueAppend(s[..6], s[6..]);
  }

  /** For names of eight digits, ordering the names as strings orders their dates
      chronologically. */
  lemma NamesChronological(a: string, b: string)
    requires ParseDateName(a).Some? && ParseDateName(b).Some? && AllDigits(a) && AllDigits(b)
    ensures LexLe(a, b) <==> DateLe(ParseDateName(a).value, ParseDateName(b).value)
  {
    LexLeDigits(a, b);
    NameValue(a);
    NameValue(b);
    DateKeyOrder(ParseDateName(a).value, ParseDateName(b).value);
  }

  lemma ValueOf2024()
    ensures DigitsValue("2024") == 2024 && DigitsValue("11") == 11 && DigitsValue("01") == 1
  {
    assert "2024"[..3] == "202" && "202"[..2] == "20" && "20"[..1] == "2" && "2"[..0] == [];
    assert "11"[..1] == "1" && "1"[..0] == [];
    assert "01"[..1] == "0" && "0"[..0] == [];
  }

  /** `%d` also reads a space-padded day, and a space sorts before every digit: the directory
      of 5 November 2024 can come before that of 1 November. */
  lemma SpacePaddedDayOutOfOrder()
    ensures ParseDateName("202411 5") == Some(Date(2024, 11, 5))
    ensures ParseDateName("20241101") == Some(Date(2024, 11, 1))
    ensures LexLe("202411 5", "20241101") && !DateLe(Date(2024, 11, 5), Date(2024, 11, 1))
  {
    ParsesSpacePadded();
    ParsesZeroPadded();
    SpaceSortsFirst();
  }

  lemma ParsesSpacePadded()
    ensures ParseDateName("202411 5") == Some(Date(2024, 11, 5))
  {
    ValueOf2024();
    var a := "202411 5";
    assert a[..4] == "2024" && a[4..6] == "11" && a[6..] == " 5";
    assert !IsDigit(a[6..][0]);
  }

  lemma ParsesZeroPadded()
    ensures ParseDateName("20241101") == Some(Date(2024, 11, 1))
  {
    ValueOf2024();
    var b := "20241101";
    assert b[..4] == "2024" && b[4..6] == "11" && b[6..] == "01";
  }

  lemma SpaceSortsFirst()
    ensures LexLe("202411 5", "20241101") && !DateLe(Date(2024, 11, 5), Date(2024, 11, 1))
  {
    var a, b := "202411 5", "20241101";
    assert LexLe(a[6..], b[6..]);
    assert LexLe(a[5..], b[5..]);
    assert LexLe(a[4..], b[4..]);
    assert LexLe(a[3..], b[3..]);
    assert LexLe(a[2..], b[2..]);
    assert LexLe(a[1..], b[1..]);
  }

  // ---------------------------------------------------------------------
  // find_date_directories
  // ---------------------------------------------------------------------

  /** An entry of `data/` matching the glob `[0-9]*`: its name, whether it is a directory, and
      whether `linkedin` exists inside it. */
  datatype Entry = Entry(name: string, isDir: bool, hasLinkedin: bool)

  datatype DateDir = DateDir(name: string, path: string)

  predicate Accepted(e: Entry)
  {
    e.isDir && |e.name| == 8 && e.hasLinkedin && ParseDateName(e.name).Some?
  }

  function DirOf(e: Entry): DateDir
  {
    DateDir(e.name, "data/" + e.name + "/linkedin")
  }

  /** The accepted entries in listing order. */
  function Candidates(entries: seq<Entry>): (r: seq<DateDir>)
    ensures |r| <= |entries|
    decreases |entries|
  {
    if entries == [] then []
    else
      var rest := Candidates(entries[..|entries| - 1]);
      var e := entries[|entries| - 1];
      if Accepted(e) then rest + [DirOf(e)] else rest
  }

  predicate NameLe(a: DateDir, b: DateDir)
  {
    LexLe(a.name, b.name)
  }

  /** `find_date_directories`: the accepted entries sorted by name. */
  function FindDateDirectories(entries: seq<Entry>): seq<DateDir>
  {
    SortBy(Candidates(entries), NameLe)
  }

  lemma NameLeTotal()
    ensures TotalPreorder(NameLe)
  {
    forall x: DateDir, y: DateDir ensures NameLe(x, y) || NameLe(y, x) {
      LexLeTotal(x.name, y.name);
    }
    forall x: DateDir, y: DateDir, z: DateDir | NameLe(x, y) && NameLe(y, z) ensures NameLe(x, z) {
      LexLeTransitive(x.name, y.name, z.name);
    }
  }

  lemma {:induction false} CandidatesMembers(entries: seq<Entry>)
    ensures forall d :: d in Candidates(entries) <==> exists e :: e in entries && Accepted(e) && d == DirOf(e)
    ensures forall d :: d in Candidates(entries) ==> ParseDateName(d.name).Some?
    decreases |entries|
  {
    if entries != [] {
      var init := entries[..|entries| - 1];
      CandidatesMembers(init);
      assert entries == init + [entries[|entries| - 1]];
    }
  }

  /** The directories found are exactly those of the accepted entries, each once per entry,
      ordered by name; every one names a valid date, and where the names are all digits the
      order is chronological. */
  lemma FindDateDirectoriesFacts(entries: seq<Entry>)
    ensures var r := FindDateDirectories(entries);
      && multiset(r) == multiset(Candidates(entries))
      && (forall d :: d in r <==> exists e :: e in entries && Accepted(e) && d == DirOf(e))
      && (forall i :: 0 <= i < |r| ==> ParseDateName(r[i].name).Some?)
      && (forall i, j :: 0 <= i < j < |r| ==> LexLe(r[i].name, r[j].name))
      && (forall i, j :: 0 <= i < j < |r| && AllDigits(r[i].name) && AllDigits(r[j].name) ==>
            DateLe(ParseDateName(r[i].name).value, ParseDateName(r[j].name).value))
  {
    var r := FindDateDirectories(entries);
    NameLeTotal();
    SortByFacts(Candidates(entries), NameLe);
    CandidatesMembers(entries);
    forall d | d in r ensures d in Candidates(entries) {
      assert d in multiset(r);
    }
    forall d | d in Candidates(entries) ensures d in r {
      assert d in multiset(Candidates(entries));
    }
    forall i | 0 <= i < |r| ensures ParseDateName(r[i].name).Some? {
      assert r[i] in r;
    }
    forall i, j | 0 <= i < j < |r| && AllDigits(r[i].name) && AllDigits(r[j].name)
      ensures DateLe(ParseDateName(r[i].name).value, ParseDateName(r[j].name).value)
    {
      assert r[i] in r && r[j] in r;
      NamesChronological(r[i].name, r[j].name);
    }
  }

  // ---------------------------------------------------------------------
  // The tables
  // ---------------------------------------------------------------------

  datatype Prefix = RunPrefix | DownloadPrefix

  /** The id generator (the n-th draw with a prefix) and the clock reading for `created_at`. */
  datatype Env = Env(newId: (Prefix, nat) -> string, now: string)

  datatype RunRow = RunRow(runId: string, startedAt: DateTime, status: string, scriptName: string,
                           platform: string, systemInfo: map<string, Json>, createdAt: string,
                           completedAt: Option<DateTime>, postsFetched: nat, postsNew: nat, postsUpdated: nat)

  datatype DownloadRow = DownloadRow(downloadId: string, postId: string, runId: string, downloadedAt: DateTime,
                                     totalReactions: Json, statsJson: Json, rawJson: Json, sourceFile: string,
                                     createdAt: string)

  /** The posts table as its UNIQUE urn column mapped to post_id, the download_runs and
      data_downloads tables, and the number of ids drawn. */
  datatype Db = Db(posts: map<string, string>, runs: seq<RunRow>, downloads: seq<DownloadRow>, draws: nat)

  function RunIds(rows: seq<RunRow>): set<string> { set r | r in rows :: r.runId }

  function DownloadIds(rows: seq<DownloadRow>): set<string> { set r | r in rows :: r.downloadId }

  /** No two rows share a run_id (its PRIMARY KEY). */
  predicate RunIdsUnique(rows: seq<RunRow>)
  {
    forall i, j :: 0 <= i < j < |rows| ==> rows[i].runId != rows[j].runId
  }

  // ---------------------------------------------------------------------
  // create_historical_run and complete_historical_run
  // ---------------------------------------------------------------------

  /** The `system_info` recorded for a backfilled run, naming its directory. */
  function SystemInfo(directory: string): (m: map<string, Json>)
    ensures m.Keys == {"hostname", "platform", "script", "note"}
    ensures m["note"] == JStr("Backfilled from " + directory) && m["script"] == JStr("run_apify.sh")
  {
    map["hostname" := JStr("historical-migration"), "platform" := JStr("linkedin"),
        "script" := JStr("run_apify.sh"), "note" := JStr("Backfilled from " + directory)]
  }

  /** `create_historical_run`: a `running` run for the directory's date, started at noon; a
      clashing run_id raises. */
  function CreateHistoricalRun(db: Db, env: Env, dir: DateDir): (r: Result<(string, Date, Db)>)
    requires ParseDateName(dir.name).Some?
    ensures r.Ok? <==> env.newId(RunPrefix, db.draws) !in RunIds(db.runs)
    ensures r.Ok? ==> var (id, date, db') := r.value;
      && id == env.newId(RunPrefix, db.draws) && date == ParseDateName(dir.name).value
      && |db'.runs| == |db.runs| + 1 && db'.runs[..|db.runs|] == db.runs
      && db'.runs[|db.runs|].runId == id && db'.runs[|db.runs|].status == "running"
      && db'.runs[|db.runs|].startedAt == At(date, 12) && db'.runs[|db.runs|].completedAt.None?
      && db'.runs[|db.runs|].systemInfo == SystemInfo(dir.path)
      && db'.posts == db.posts && db'.downloads == db.downloads && db'.draws == db.draws + 1
  {
    var id := env.newId(RunPrefix, db.draws);
    var date := ParseDateName(dir.name).value;
    if id in RunIds(db.runs) then Err("UNIQUE constraint failed: download_runs.run_id")
    else
      var row := RunRow(id, At(date, 12), "running", "run_apify.sh", "linkedin", SystemInfo(dir.path), env.now,
                        None, 0, 0, 0);
      Ok((id, date, db.(runs := db.runs + [row], draws := db.draws + 1)))
  }

  /** The dictionary `import_historical_directory` returns. */
  datatype Stats = Stats(processed: nat, newPosts: nat, existing: nat, created: nat, errors: nat)

  /** `complete_historical_run`: the run gets its end time, one hour after the start, and its
      counts; the status is `completed` whether or not errors were counted. */
  function CompleteHistoricalRun(db: Db, runId: string, date: Date, s: Stats): Db
  {
    var status := if s.errors == 0 then "completed" else "completed";
    db.(runs := seq(|db.runs|, k requires 0 <= k < |db.runs| =>
                      if db.runs[k].runId == runId
                      then db.runs[k].(completedAt := Some(At(date, 13)), status := status, postsFetched := s.processed,
                                       postsNew := s.newPosts, postsUpdated := s.existing)
                      else db.runs[k]))
  }

  /** Completing the run just created changes that row alone: it is `completed` at 13:00 of
      its date, even with errors, with `posts_updated` the existing posts. */
  lemma CompleteFacts(db: Db, runId: string, date: Date, s: Stats)
    requires |db.runs| > 0 && db.runs[|db.runs| - 1].runId == runId && RunIdsUnique(db.runs)
    ensures var db' := CompleteHistoricalRun(db, runId, date, s); var n := |db.runs|;
      && |db'.runs| == n && db'.runs[..n - 1] == db.runs[..n - 1] && RunIdsUnique(db'.runs)
      && db'.runs[n - 1] == db.runs[n - 1].(completedAt := Some(At(date, 13)), status := "completed",
                                            postsFetched := s.processed, postsNew := s.newPosts,
                                            postsUpdated := s.existing)
      && db'.posts == db.posts && db'.downloads == db.downloads && db'.draws == db.draws
  {
    var db' := CompleteHistoricalRun(db, runId, date, s);
    assert db'.runs[..|db.runs| - 1] == db.runs[..|db.runs| - 1];
  }

  // ---------------------------------------------------------------------
  // import_historical_directory
  // ---------------------------------------------------------------------

  /** The text SQLite compares with the TEXT urn column for a bound value; None: the value
      cannot be bound (an array, an object, or an int beyond 64 bits), and the lookup raises. */
  function UrnKey(urn: Json): (r: Option<string>)
    ensures r.None? <==> urn.JNull? || !Bindable(urn)
  {
    match urn
    case JStr(t) => Some(t)
    case JInt(i) => if Bindable(urn) then Some(IntText(i)) else None
    case JBool(b) => Some(if b then "1" else "0")
    case _ => None
  }

  /** What became of a post: no URN; the file aborted before the lookup ended; not in the
      posts table; or existing, and then its download row was written, clashed on its key,
      or aborted the file. */
  datatype Download = Written | Clashed | Aborted
  datatype Fate = NoUrn | AbortedEarly | NotFound | Existing(dl: Download)

  predicate EndsFile(f: Fate)
  {
    f == AbortedEarly || f == Existing(Aborted)
  }

  /** One post of a file: its URN, the lookup, then a download row stamped at noon. A post that
      is not a dict, an unbindable URN, `stats` that is not a dict or an unbindable reaction
      count raise out of the file's loop. */
  function ImportPost(db: Db, env: Env, post: Json, runId: string, date: Date, path: string): (Db, Fate)
  {
    if !post.JObject? then (db, AbortedEarly)
    else
      var urn := ManageData.PostUrn(post.fields);
      if !Truthy(urn) then (db, NoUrn)
      else
        match UrnKey(urn)
        case None => (db, AbortedEarly)
        case Some(key) =>
          if key !in db.posts then (db, NotFound)
          else
            var id := env.newId(DownloadPrefix, db.draws);
            var db1 := db.(draws := db.draws + 1);
            var stats := GetOr(post.fields, "stats", JObject(map[]));
            if !stats.JObject? then (db1, Existing(Aborted))
            else
              var total := GetOr(stats.fields, "total_reactions", JInt(0));
              if !Bindable(total) then (db1, Existing(Aborted))
              else if id in DownloadIds(db.downloads) then (db1, Existing(Clashed))
              else
                var row := DownloadRow(id, db.posts[key], runId, At(date, 12), total, stats, post, path, env.now);
                (db1.(downloads := db.downloads + [row]), Existing(Written))
  }

  /** The counters, with `errors` broken down by cause. */
  datatype Tally = Tally(processed: nat, existing: nat, written: nat, noUrn: nat, notFound: nat, clashed: nat,
                         abortedEarly: nat, abortedLate: nat, badFiles: nat)

  const NoCounts := Tally(0, 0, 0, 0, 0, 0, 0, 0, 0)

  function StatsOf(t: Tally): Stats
  {
    Stats(t.processed, 0, t.existing, t.written,
          t.noUrn + t.notFound + t.clashed + t.abortedEarly + t.abortedLate + t.badFiles)
  }

  function Count(t: Tally, f: Fate): Tally
  {
    var t1 := t.(processed := t.processed + 1);
    match f
    case NoUrn => t1.(noUrn := t1.noUrn + 1)
    case AbortedEarly => t1.(abortedEarly := t1.abortedEarly + 1)
    case NotFound => t1.(notFound := t1.notFound + 1)
    case Existing(dl) =>
      var t2 := t1.(existing := t1.existing + 1);
      match dl
      case Written => t2.(written := t2.written + 1)
      case Clashed => t2.(clashed := t2.clashed + 1)
      case Aborted => t2.(abortedLate := t2.abortedLate + 1)
  }

  /** A `*.json` file of the directory: its path and its decoded content (Err: unreadable). */
  datatype SourceFile = SourceFile(path: string, content: Result<Json>)

  function ImportPosts(db: Db, env: Env, posts: seq<Json>, runId: string, date: Date, path: string, t: Tally)
    : (Db, Tally)
    decreases |posts|
  {
    if posts == [] then (db, t)
    else
      var (db1, f) := ImportPost(db, env, posts[0], runId, date, path);
      if EndsFile(f) then (db1, Count(t, f))
      else ImportPosts(db1, env, posts[1..], runId, date, path, Count(t, f))
  }

  /** A file that cannot be read or decoded is one error; one holding neither a list nor a
      dict is skipped. */
  function ImportFile(db: Db, env: Env, file: SourceFile, runId: string, date: Date, t: Tally): (Db, Tally)
  {
    match file.content
    case Err(_) => (db, t.(badFiles := t.badFiles + 1))
    case Ok(data) =>
      match ManageData.PostsIn(data)
      case None => (db, t)
      case Some(posts) => ImportPosts(db, env, posts, runId, date, file.path, t)
  }

  function ImportFiles(db: Db, env: Env, files: seq<SourceFile>, runId: string, date: Date, t: Tally): (Db, Tally)
    decreases |files|
  {
    if files == [] then (db, t)
    else
      var (db1, t1) := ImportFile(db, env, files[0], runId, date, t);
      ImportFiles(db1, env, files[1..], runId, date, t1)
  }

  /** `import_historical_directory`, file by file and post by post. */
  method ImportHistoricalDirectory(db: Db, env: Env, files: seq<SourceFile>, runId: string, date: Date)
    returns (db': Db, stats: Stats)
    ensures (db', stats) == (ImportFiles(db, env, files, runId, date, NoCounts).0,
                             StatsOf(ImportFiles(db, env, files, runId, date, NoCounts).1))
  {
    var cur := db;
    var t := NoCounts;
    var i := 0;
    while i < |files|
      invariant 0 <= i <= |files|
      invariant ImportFiles(cur, env, files[i..], runId, date, t) == ImportFiles(db, env, files, runId, date, NoCounts)
    {
      assert files[i..][0] == files[i] && files[i..][1..] == files[i + 1..];
      var file := files[i];
      if file.content.Err? {
        t := t.(badFiles := t.badFiles + 1);
      } else {
        var posts := ManageData.PostsIn(file.content.value);
        if posts.Some? {
          ghost var target := ImportPosts(cur, env, posts.value, runId, date, file.path, t);
          var j := 0;
          var stop := false;
          while j < |posts.value| && !stop
            invariant 0 <= j <= |posts.value|
            invariant !stop ==> ImportPosts(cur, env, posts.value[j..], runId, date, file.path, t) == target
            invariant stop ==> (cur, t) == target
          {
            assert posts.value[j..][0] == posts.value[j] && posts.value[j..][1..] == posts.value[j + 1..];
            var (next, fate) := ImportPost(cur, env, posts.value[j], runId, date, file.path);
            cur, t := next, Count(t, fate);
            stop := EndsFile(fate);
            j := j + 1;
          }
          assert !stop ==> posts.value[j..] == [];
        }
      }
      i := i + 1;
    }
    assert files[i..] == [];
    db', stats := cur, StatsOf(t);
  }

  // ---------------------------------------------------------------------
  // Properties of the import
  // ---------------------------------------------------------------------

  /** Every processed post is missing its URN, aborted its file before the lookup ended, is not
      in the posts table, or exists; every existing one got a download row, clashed, or aborted
      its file. */
  predicate Balanced(t: Tally)
  {
    && t.processed == t.noUrn + t.abortedEarly + t.notFound + t.existing
    && t.existing == t.written + t.clashed + t.abortedLate
  }

  /** A download row of this run for a post already in the table, stamped at noon. */
  predicate RowOfRun(row: DownloadRow, posts: map<string, string>, runId: string, date: Date)
  {
    row.runId == runId && row.postId in posts.Values && row.downloadedAt == At(date, 12)
  }

  /** From (db, t) to (db', t'): only download rows of this run were appended, one per written
      post, and the counters stay balanced. */
  ghost predicate Grows(db: Db, t: Tally, db': Db, t': Tally, runId: string, date: Date)
  {
    && db'.posts == db.posts && db'.runs == db.runs && db.downloads <= db'.downloads
    && |db'.downloads| - |db.downloads| == t'.written - t.written
    && (forall k :: |db.downloads| <= k < |db'.downloads| ==> RowOfRun(db'.downloads[k], db.posts, runId, date))
    && (Balanced(t) ==> Balanced(t'))
  }

  lemma GrowsTrans(a: Db, ta: Tally, b: Db, tb: Tally, c: Db, tc: Tally, runId: string, date: Date)
    requires Grows(a, ta, b, tb, runId, date) && Grows(b, tb, c, tc, runId, date)
    ensures Grows(a, ta, c, tc, runId, date)
  {
    forall k | |a.downloads| <= k < |c.downloads| ensures RowOfRun(c.downloads[k], a.posts, runId, date) {
      if k < |b.downloads| {
        assert c.downloads[k] == b.downloads[k];
      }
    }
  }

  lemma ImportPostGrows(db: Db, env: Env, post: Json, runId: string, date: Date, path: string, t: Tally)
    ensures var (db', f) := ImportPost(db, env, post, runId, date, path);
      Grows(db, t, db', Count(t, f), runId, date)
  {
    var (db', f) := ImportPost(db, env, post, runId, date, path);
    if f == Existing(Written) {
      var key := UrnKey(ManageData.PostUrn(post.fields)).value;
      assert db'.downloads[|db.downloads|].postId == db.posts[key];
    }
  }

  lemma {:induction false} ImportPostsGrows(db: Db, env: Env, posts: seq<Json>, runId: string, date: Date,
                                            path: string, t: Tally)
    ensures var (db', t') := ImportPosts(db, env, posts, runId, date, path, t);
      Grows(db, t, db', t', runId, date)
    decreases |posts|
  {
    if posts != [] {
      var (db1, f) := ImportPost(db, env, posts[0], runId, date, path);
      ImportPostGrows(db, env, posts[0], runId, date, path, t);
      if !EndsFile(f) {
        ImportPostsGrows(db1, env, posts[1..], runId, date, path, Count(t, f));
        var (db2, t2) := ImportPosts(db1, env, posts[1..], runId, date, path, Count(t, f));
        GrowsTrans(db, t, db1, Count(t, f), db2, t2, runId, date);
      }
    }
  }

  lemma {:induction false} ImportFilesGrows(db: Db, env: Env, files: seq<SourceFile>, runId: string, date: Date,
                                            t: Tally)
    ensures var (db', t') := ImportFiles(db, env, files, runId, date, t);
      Grows(db, t, db', t', runId, date)
    decreases |files|
  {
    if files != [] {
      var (db1, t1) := ImportFile(db, env, files[0], runId, date, t);
      var f := files[0];
      if f.content.Ok? && ManageData.PostsIn(f.content.value).Some? {
        ImportPostsGrows(db, env, ManageData.PostsIn(f.content.value).value, runId, date, f.path, t);
      }
      ImportFilesGrows(db1, env, files[1..], runId, date, t1);
      var (db2, t2) := ImportFiles(db1, env, files[1..], runId, date, t1);
      GrowsTrans(db, t, db1, t1, db2, t2, runId, date);
    }
  }

  lemma GrowsFromZero(db: Db, db': Db, t: Tally, runId: string, date: Date)
    requires Grows(db, NoCounts, db', t, runId, date)
    ensures Balanced(t) && |db'.downloads| == |db.downloads| + t.written
  {
    assert Balanced(NoCounts);
  }

  /** `import_historical_directory`: no post is ever new; each processed post is a missing URN,
      an early abort, a post not in the table, or an existing post; the downloads created are
      the existing posts less clashes and late aborts, and each is a row of this run for a
      known post stamped at noon; nothing else changes. */
  lemma ImportFacts(db: Db, env: Env, files: seq<SourceFile>, runId: string, date: Date)
    ensures var r := ImportFiles(db, env, files, runId, date, NoCounts);
      var t := r.1;
      var s := StatsOf(t);
      && t.processed == t.noUrn + t.abortedEarly + t.notFound + t.existing
      && t.existing == t.written + t.clashed + t.abortedLate
      && s.newPosts == 0 && s.created <= s.existing && s.processed <= s.existing + s.errors
      && r.0.posts == db.posts && r.0.runs == db.runs && db.downloads <= r.0.downloads
      && |r.0.downloads| == |db.downloads| + s.created
      && (forall k :: |db.downloads| <= k < |r.0.downloads| ==> RowOfRun(r.0.downloads[k], db.posts, runId, date))
  {
    ImportFilesGrows(db, env, files, runId, date, NoCounts);
    var r := ImportFiles(db, env, files, runId, date, NoCounts);
    GrowsFromZero(db, r.0, r.1, runId, date);
  }

  // ---------------------------------------------------------------------
  // main
  // ---------------------------------------------------------------------

  /** The totals printed at the end. */
  datatype Totals = Totals(runs: nat, processed: nat, newPosts: nat, existing: nat, created: nat, errors: nat)

  const NoTotals := Totals(0, 0, 0, 0, 0, 0)

  function AddRun(t: Totals, s: Stats): Totals
  {
    Totals(t.runs + 1, t.processed + s.processed, t.newPosts + s.newPosts, t.existing + s.existing,
           t.created + s.created, t.errors + s.errors)
  }

  predicate AllDated(dirs: seq<DateDir>)
  {
    forall i :: 0 <= i < |dirs| ==> ParseDateName(dirs[i].name).Some?
  }

  /** One directory: create its run, import its files, complete the run. */
  function RunOne(db: Db, env: Env, dir: DateDir, files: string -> seq<SourceFile>): Result<(Db, Stats)>
    requires ParseDateName(dir.name).Some?
  {
    match CreateHistoricalRun(db, env, dir)
    case Err(e) => Err(e)
    case Ok(created) =>
      var (id, date, db1) := created;
      var r := ImportFiles(db1, env, files(dir.path), id, date, NoCounts);
      var s := StatsOf(r.1);
      Ok((CompleteHistoricalRun(r.0, id, date, s), s))
  }

  /** The directories in order, adding each run's stats to the totals; a run that cannot be
      created raises out of the loop, and `ok` is false. */
  function RunAll(db: Db, env: Env, dirs: seq<DateDir>, files: string -> seq<SourceFile>, tot: Totals)
    : (Db, Totals, bool)
    requires AllDated(dirs)
    decreases |dirs|
  {
    if dirs == [] then (db, tot, true)
    else
      match RunOne(db, env, dirs[0], files)
      case Err(_) => (db, tot, false)
      case Ok(done) => RunAll(done.0, env, dirs[1..], files, AddRun(tot, done.1))
  }

  /** How `main` ends. */
  datatype Ending = NoDatabase | NoDirectories | DryRun | Cancelled | Finished | Failed

  /** `main`: `dbExists` says whether the database file exists, `answer` is the reply to the
      confirmation prompt, and `files` gives the decoded `*.json` files of a directory. */
  function Main(dbExists: bool, db: Db, env: Env, entries: seq<Entry>, files: string -> seq<SourceFile>,
                dryRun: bool, answer: string): (Db, Totals, Ending)
  {
    if !dbExists then (db, NoTotals, NoDatabase)
    else
      var dirs := FindDateDirectories(entries);
      if dirs == [] then (db, NoTotals, NoDirectories)
      else if dryRun then (db, NoTotals, DryRun)
      else if Lower(answer) != "y" then (db, NoTotals, Cancelled)
      else
        FindDateDirectoriesFacts(entries);
        var r := RunAll(db, env, dirs, files, NoTotals);
        (r.0, r.1, if r.2 then Finished else Failed)
  }

  /** One iteration of `main`'s loop. */
  method RunDirectory(db: Db, env: Env, dir: DateDir, files: string -> seq<SourceFile>)
    returns (r: Result<(Db, Stats)>)
    requires ParseDateName(dir.name).Some?
    ensures r == RunOne(db, env, dir, files)
  {
    var created := CreateHistoricalRun(db, env, dir);
    if created.Err? {
      return Err(created.error);
    }
    var (id, date, db1) := created.value;
    var db2, stats := ImportHistoricalDirectory(db1, env, files(dir.path), id, date);
    r := Ok((CompleteHistoricalRun(db2, id, date, stats), stats));
  }

  /** `main`'s loop over the directories. */
  method RunDirectories(db: Db, env: Env, dirs: seq<DateDir>, files: string -> seq<SourceFile>)
    returns (db': Db, totals: Totals, ok: bool)
    requires AllDated(dirs)
    ensures (db', totals, ok) == RunAll(db, env, dirs, files, NoTotals)
  {
    db', totals := db, NoTotals;
    var i := 0;
    while i < |dirs|
      invariant 0 <= i <= |dirs| && AllDated(dirs[i..])
      invariant RunAll(db', env, dirs[i..], files, totals) == RunAll(db, env, dirs, files, NoTotals)
    {
      assert dirs[i..][0] == dirs[i] && dirs[i..][1..] == dirs[i + 1..];
      var r := RunDirectory(db', env, dirs[i], files);
      if r.Err? {
        return db', totals, false;
      }
      db', totals := r.value.0, AddRun(totals, r.value.1);
      i := i + 1;
    }
    assert dirs[i..] == [];
    ok := true;
  }

  /** `main`: the checks, the confirmation, then the loop. */
  method MigrateHistoricalRunsMain(dbExists: bool, db: Db, env: Env, entries: seq<Entry>,
                                   files: string -> seq<SourceFile>, dryRun: bool, answer: string)
    returns (db': Db, totals: Totals, ending: Ending)
    ensures (db', totals, ending) == Main(dbExists, db, env, entries, files, dryRun, answer)
  {
    if !dbExists {
      return db, NoTotals, NoDatabase;
    }
    var dirs := FindDateDirectories(entries);
    if dirs == [] {
      return db, NoTotals, NoDirectories;
    }
    if dryRun {
      return db, NoTotals, DryRun;
    }
    if Lower(answer) != "y" {
      return db, NoTotals, Cancelled;
    }
    FindDateDirectoriesFacts(entries);
    var ok;
    db', totals, ok := RunDirectories(db, env, dirs, files);
    ending := if ok then Finished else Failed;
  }

  // ---------------------------------------------------------------------
  // Properties of the runs and the totals
  // ---------------------------------------------------------------------

  function FetchedSum(rows: seq<RunRow>): nat
  {
    if rows == [] then 0 else rows[0].postsFetched + FetchedSum(rows[1..])
  }

  function NewSum(rows: seq<RunRow>): nat
  {
    if rows == [] then 0 else rows[0].postsNew + NewSum(rows[1..])
  }

  function UpdatedSum(rows: seq<RunRow>): nat
  {
    if rows == [] then 0 else rows[0].postsUpdated + UpdatedSum(rows[1..])
  }

  /** A backfilled run as it is left: completed, from 12:00:00 to 13:00:00 of one date. */
  predicate Completed(row: RunRow)
  {
    && row.status == "completed" && row.completedAt.Some?
    && row.startedAt == At(row.startedAt.date, 12) && row.completedAt.value == At(row.startedAt.date, 13)
  }

  /** One directory appends one completed run whose counts are the import's stats, and the
      import's download rows; earlier runs are untouched. */
  lemma RunOneFacts(db: Db, env: Env, dir: DateDir, files: string -> seq<SourceFile>)
    requires ParseDateName(dir.name).Some? && RunIdsUnique(db.runs)
    ensures var r := RunOne(db, env, dir, files);
      r.Ok? ==>
        var (db', s) := r.value;
        && |db'.runs| == |db.runs| + 1 && db'.runs[..|db.runs|] == db.runs && RunIdsUnique(db'.runs)
        && Completed(db'.runs[|db.runs|]) && db'.runs[|db.runs|].startedAt.date == ParseDateName(dir.name).value
        && db'.runs[|db.runs|].postsFetched == s.processed && db'.runs[|db.runs|].postsNew == s.newPosts == 0
        && db'.runs[|db.runs|].postsUpdated == s.existing
        && s.created <= s.existing && s.processed <= s.existing + s.errors
        && db'.posts == db.posts && db.downloads <= db'.downloads && |db'.downloads| == |db.downloads| + s.created
  {
    var c := CreateHistoricalRun(db, env, dir);
    if c.Ok? {
      var (id, date, db1) := c.value;
      assert RunIdsUnique(db1.runs) by {
        assert forall k :: 0 <= k < |db.runs| ==> db.runs[k] in db.runs;
      }
      ImportFacts(db1, env, files(dir.path), id, date);
      var r := ImportFiles(db1, env, files(dir.path), id, date, NoCounts);
      CompleteFacts(r.0, id, date, StatsOf(r.1));
    }
  }

  /** From `db` and `tot` to `db2` and `tot2`: runs were only appended, every appended run is
      completed, ids stay unique, posts are untouched, and the totals grew by the field-wise
      sums of the appended runs' counts (`new_posts` by nothing), `created` by the download
      rows written; `created <= existing` and `processed <= existing + errors` carry over. */
  ghost predicate Grew(db: Db, db2: Db, tot: Totals, tot2: Totals)
  {
    && db.runs <= db2.runs
    && var added := db2.runs[|db.runs|..];
    && RunIdsUnique(db2.runs) && db2.posts == db.posts
    && (forall k :: |db.runs| <= k < |db2.runs| ==> Completed(db2.runs[k]))
    && tot2.runs == tot.runs + |added|
    && tot2.processed == tot.processed + FetchedSum(added)
    && tot2.newPosts == tot.newPosts && NewSum(added) == 0
    && tot2.existing == tot.existing + UpdatedSum(added)
    && db.downloads <= db2.downloads && tot2.created == tot.created + (|db2.downloads| - |db.downloads|)
    && (tot.created <= tot.existing ==> tot2.created <= tot2.existing)
    && (tot.processed <= tot.existing + tot.errors ==> tot2.processed <= tot2.existing + tot2.errors)
  }

  /** The totals are the field-wise sums over the runs this migration created, every one of
      which is completed; `new_posts` stays 0, the downloads created are never more than the
      existing posts, and all directories got a run unless the loop raised. */
  lemma {:induction false} RunAllFacts(db: Db, env: Env, dirs: seq<DateDir>, files: string -> seq<SourceFile>,
                                       tot: Totals)
    requires AllDated(dirs) && RunIdsUnique(db.runs)
    ensures var r := RunAll(db, env, dirs, files, tot);
      Grew(db, r.0, tot, r.1) && (r.2 ==> r.1.runs == tot.runs + |dirs|)
    decreases |dirs|
  {
    if dirs == [] {
      assert db.runs[|db.runs|..] == [];
    } else {
      RunOneFacts(db, env, dirs[0], files);
      var one := RunOne(db, env, dirs[0], files);
      if one.Err? {
        assert db.runs[|db.runs|..] == [];
      } else {
        var (db1, s) := one.value;
        assert AllDated(dirs[1..]) by {
          assert forall i :: 0 <= i < |dirs[1..]| ==> dirs[1..][i] == dirs[i + 1];
        }
        RunAllFacts(db1, env, dirs[1..], files, AddRun(tot, s));
        var r := RunAll(db1, env, dirs[1..], files, AddRun(tot, s));
        GrewCons(db, db1, r.0, tot, s, r.1);
      }
    }
  }

  /** One directory's run followed by the growth of the rest is growth from the start. */
  lemma GrewCons(db: Db, db1: Db, db2: Db, tot: Totals, s: Stats, tot2: Totals)
    requires |db1.runs| == |db.runs| + 1 && db1.runs[..|db.runs|] == db.runs
    requires Completed(db1.runs[|db.runs|])
    requires db1.runs[|db.runs|].postsFetched == s.processed && db1.runs[|db.runs|].postsNew == s.newPosts == 0
    requires db1.runs[|db.runs|].postsUpdated == s.existing
    requires s.created <= s.existing && s.processed <= s.existing + s.errors
    requires db1.posts == db.posts && db.downloads <= db1.downloads && |db1.downloads| == |db.downloads| + s.created
    requires Grew(db1, db2, AddRun(tot, s), tot2)
    ensures Grew(db, db2, tot, tot2)
  {
    var added := db2.runs[|db.runs|..];
    assert added[0] == db1.runs[|db.runs|];
    assert added[1..] == db2.runs[|db1.runs|..];
    assert db.runs <= db2.runs by {
      assert db.runs == db1.runs[..|db.runs|];
    }
    forall k | |db.runs| <= k < |db2.runs| ensures Completed(db2.runs[k]) {
      if k == |db.runs| {
        assert db2.runs[k] == db1.runs[k];
      }
    }
  }

  /** `main` writes nothing unless the database exists, directories are found, it is not a dry
      run and the answer is `y`; then each directory found gets one completed run, in date-name
      order, and the totals are the sums of the counts written to those runs. */
  lemma MainFacts(dbExists: bool, db: Db, env: Env, entries: seq<Entry>, files: string -> seq<SourceFile>,
                  dryRun: bool, answer: string)
    requires RunIdsUnique(db.runs)
    ensures var r := Main(dbExists, db, env, entries, files, dryRun, answer);
      && (r.2 != Finished && r.2 != Failed ==> r.0 == db && r.1 == NoTotals)
      && (r.2 == Finished || r.2 == Failed <==>
            dbExists && FindDateDirectories(entries) != [] && !dryRun && Lower(answer) == "y")
      && db.runs <= r.0.runs
      && var added := r.0.runs[|db.runs|..];
      && (forall k :: |db.runs| <= k < |r.0.runs| ==> Completed(r.0.runs[k]))
      && r.1.runs == |added| && r.1.processed == FetchedSum(added) && r.1.existing == UpdatedSum(added)
      && r.1.newPosts == 0 && r.1.created <= r.1.existing && r.1.processed <= r.1.existing + r.1.errors
      && (r.2 == Finished ==> |added| == |FindDateDirectories(entries)|)
  {
    var dirs := FindDateDirectories(entries);
    if dbExists && dirs != [] && !dryRun && Lower(answer) == "y" {
      FindDateDirectoriesFacts(entries);
      RunAllFacts(db, env, dirs, files, NoTotals);
      var r := RunAll(db, env, dirs, files, NoTotals);
      assert Main(dbExists, db, env, entries, files, dryRun, answer) == (r.0, r.1, if r.2 then Finished else Failed);
    }
  }
}
