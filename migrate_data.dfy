/**
 * Copying every table of the SQLite database into Supabase (archive/migrate_data.py).
 *
 * The SQLite file is a map from table name to its rows; `SELECT *` on a table it does not
 * hold raises. The Supabase side is a value of its own: its tables' rows and the number of
 * requests sent so far. Whether the k-th request succeeds is an oracle, so a network error,
 * a rejected row or a missing permission all read as "request k raised".
 */
module MigrateData {
  import opened Common

  type Row = map<string, Json>

  // ---------------------------------------------------------------------
  // MIGRATION_ORDER and BOOLEAN_FIELDS
  // ---------------------------------------------------------------------

  /** The tables in the order they are copied, each with its primary key column. */
  const MigrationOrder: seq<(string, string)> := [
    ("posts", "post_id"),
    ("profiles", "profile_id"),
    ("tags", "tag_id"),
    ("download_runs", "run_id"),
    ("profile_tags", "profile_tag_id"),
    ("post_tags", "post_tag_id"),
    ("data_downloads", "download_id"),
    ("action_queue", "queue_id"),
    ("post_media", "media_id")
  ]

  /** Tier 1: tables that reference no other table. */
  const Independent: set<string> := {"posts", "profiles", "tags", "download_runs"}

  /** Tier 2: tables whose rows reference rows of tier 1. */
  const Dependent: set<string> := {"profile_tags", "post_tags", "data_downloads", "action_queue", "post_media"}

  /** Each table appears once, in exactly one tier, and every dependent table is copied
      after every table it may reference. */
  lemma MigrationOrderTiers()
    ensures |MigrationOrder| == 9
    ensures forall i, j :: 0 <= i < j < |MigrationOrder| ==> MigrationOrder[i].0 != MigrationOrder[j].0
    ensures forall i :: 0 <= i < |MigrationOrder| ==>
      (MigrationOrder[i].0 in Independent) != (MigrationOrder[i].0 in Dependent)
    ensures forall i, j ::
      (0 <= i < |MigrationOrder| && 0 <= j < |MigrationOrder| &&
       MigrationOrder[i].0 in Independent && MigrationOrder[j].0 in Dependent) ==> i < j
  {
  }

  /** The columns SQLite stores as 0/1 that Supabase holds as booleans. */
  function BooleanFields(table: string): seq<string>
  {
    if table == "posts" then ["is_read", "is_marked"]
    else if table == "profiles" then ["is_active"]
    else []
  }

  // ---------------------------------------------------------------------
  // convert_boolean_fields
  // ---------------------------------------------------------------------

  /** A row of `table` as it is sent: each listed column that is present and not NULL holds
      the truth value of what it held. */
  function Converted(table: string, row: Row): Row
  {
    map k | k in row :: if k in BooleanFields(table) && row[k] != JNull then JBool(Truthy(row[k])) else row[k]
  }

  /** The loop over the table's boolean columns. */
  method ConvertBooleanFields(table: string, row: Row) returns (r: Row)
    ensures r == Converted(table, row)
  {
    r := row;
    var fields := BooleanFields(table);
    for i := 0 to |fields|
      invariant r.Keys == row.Keys
      invariant forall k :: k in r ==>
        r[k] == if k in fields[..i] && row[k] != JNull then JBool(Truthy(row[k])) else row[k]
    {
      var f := fields[i];
      assert fields[..i + 1] == fields[..i] + [f];
      if f in r && r[f] != JNull {
        r := r[f := JBool(Truthy(r[f]))];
      }
    }
    assert fields[..|fields|] == fields;
  }

  /** Only the listed columns change: a present non-NULL one becomes the boolean of its
      value (0 false, 1 true), NULL stays NULL, and the row keeps its columns; a table with no
      boolean columns is sent as it is; converting twice is converting once. */
  lemma ConvertFacts(table: string, row: Row)
    ensures Converted(table, row).Keys == row.Keys
    ensures forall k :: k in row && k !in BooleanFields(table) ==> Converted(table, row)[k] == row[k]
    ensures forall k :: k in row && k in BooleanFields(table) && row[k] != JNull ==>
      Converted(table, row)[k] == JBool(Truthy(row[k]))
    ensures forall k :: k in row && row[k] == JNull ==> Converted(table, row)[k] == JNull
    ensures BooleanFields(table) == [] ==> Converted(table, row) == row
    ensures Converted(table, Converted(table, row)) == Converted(table, row)
  {
    var c := Converted(table, row);
    assert forall k :: k in c ==> Converted(table, c)[k] == c[k];
  }

  /** SQLite's 0 and 1 become false and true. */
  lemma ConvertSqliteFlags(table: string, row: Row, k: string)
    requires k in row && k in BooleanFields(table)
    ensures row[k] == JInt(0) ==> Converted(table, row)[k] == JBool(false)
    ensures row[k] == JInt(1) ==> Converted(table, row)[k] == JBool(true)
  {
  }

  /** Every row of a batch converted. */
  function ConvertAll(table: string, rows: seq<Row>): (r: seq<Row>)
    ensures |r| == |rows|
  {
    seq(|rows|, i requires 0 <= i < |rows| => Converted(table, rows[i]))
  }

  // ---------------------------------------------------------------------
  // The Supabase side
  // ---------------------------------------------------------------------

  /** Supabase's tables and the number of requests it has been sent. */
  datatype Remote = Remote(tables: map<string, seq<Row>>, calls: nat)

  /** Whether the k-th request succeeds. */
  type Net = nat -> bool

  /** `insert(rows).execute()`: one request, which stores all the rows or none of them;
      false: it raised. A table Supabase does not have rejects every insert. */
  function Insert(r: Remote, ok: Net, table: string, rows: seq<Row>): (Remote, bool)
  {
    if ok(r.calls) && table in r.tables then (Remote(r.tables[table := r.tables[table] + rows], r.calls + 1), true)
    else (Remote(r.tables, r.calls + 1), false)
  }

  // ---------------------------------------------------------------------
  // import_table_to_supabase
  // ---------------------------------------------------------------------

  /** Rows sent one request each; the counts so far are `s` stored and `e` rejected. */
  function InsertEach(r: Remote, ok: Net, table: string, rows: seq<Row>, s: nat, e: nat): (Remote, nat, nat)
    decreases |rows|
  {
    if rows == [] then (r, s, e)
    else
      var ins := Insert(r, ok, table, [rows[0]]);
      InsertEach(ins.0, ok, table, rows[1..], if ins.1 then s + 1 else s, if ins.1 then e else e + 1)
  }

  /** One batch: converted, sent whole, and on failure sent again row by row. */
  function ImportBatch(r: Remote, ok: Net, table: string, batch: seq<Row>, s: nat, e: nat): (Remote, nat, nat)
  {
    var rows := ConvertAll(table, batch);
    var ins := Insert(r, ok, table, rows);
    if ins.1 then (ins.0, s + |batch|, e) else InsertEach(ins.0, ok, table, rows, s, e)
  }

  function ImportBatches(r: Remote, ok: Net, table: string, batches: seq<seq<Row>>, s: nat, e: nat): (Remote, nat, nat)
    decreases |batches|
  {
    if batches == [] then (r, s, e)
    else
      var b := ImportBatch(r, ok, table, batches[0], s, e);
      ImportBatches(b.0, ok, table, batches[1..], b.1, b.2)
  }

  /** The default batch size. */
  const BatchSize: nat := 100

  /** `import_table_to_supabase`: Supabase afterwards, the rows stored and the rows rejected. */
  function ImportTable(r: Remote, ok: Net, table: string, data: seq<Row>): (Remote, nat, nat)
  {
    if data == [] then (r, 0, 0) else ImportBatches(r, ok, table, Chunks(data, BatchSize), 0, 0)
  }

  /** What an import leaves behind: the other tables untouched, the rows stored appended to
      the table, and when nothing was rejected, the whole input converted in order. */
  ghost predicate Imported(r: Remote, r': Remote, table: string, rows: seq<Row>, s: nat, e: nat)
  {
    && r'.tables.Keys == r.tables.Keys
    && r.calls <= r'.calls
    && s + e == |rows|
    && (forall u :: u in r.tables && u != table ==> r'.tables[u] == r.tables[u])
    && (table in r.tables ==>
          r.tables[table] <= r'.tables[table] && |r'.tables[table]| == |r.tables[table]| + s)
    && (table !in r.tables ==> s == 0 && r'.tables == r.tables)
    && (e == 0 && rows != [] ==> table in r.tables && r'.tables[table] == r.tables[table] + rows)
  }

  lemma {:induction false} InsertEachFacts(r: Remote, ok: Net, table: string, rows: seq<Row>, s: nat, e: nat)
    ensures var x := InsertEach(r, ok, table, rows, s, e);
      x.1 >= s && x.2 >= e && Imported(r, x.0, table, rows, x.1 - s, x.2 - e)
    decreases |rows|
  {
    if rows != [] {
      var ins := Insert(r, ok, table, [rows[0]]);
      var s1 := if ins.1 then s + 1 else s;
      var e1 := if ins.1 then e else e + 1;
      InsertEachFacts(ins.0, ok, table, rows[1..], s1, e1);
      var x := InsertEach(ins.0, ok, table, rows[1..], s1, e1);
      assert [rows[0]] + rows[1..] == rows;
      if table in r.tables {
        assert r.tables[table] <= ins.0.tables[table] <= x.0.tables[table];
      }
    }
  }

  lemma ImportBatchFacts(r: Remote, ok: Net, table: string, batch: seq<Row>, s: nat, e: nat)
    ensures var x := ImportBatch(r, ok, table, batch, s, e);
      x.1 >= s && x.2 >= e && Imported(r, x.0, table, ConvertAll(table, batch), x.1 - s, x.2 - e)
  {
    var rows := ConvertAll(table, batch);
    var ins := Insert(r, ok, table, rows);
    if !ins.1 {
      InsertEachFacts(ins.0, ok, table, rows, s, e);
    }
  }

  lemma {:induction false} ImportBatchesFacts(r: Remote, ok: Net, table: string, batches: seq<seq<Row>>, s: nat, e: nat)
    ensures var x := ImportBatches(r, ok, table, batches, s, e);
      x.1 >= s && x.2 >= e && Imported(r, x.0, table, ConvertAll(table, Flatten(batches)), x.1 - s, x.2 - e)
    decreases |batches|
  {
    if batches != [] {
      var b := ImportBatch(r, ok, table, batches[0], s, e);
      ImportBatchFacts(r, ok, table, batches[0], s, e);
      ImportBatchesFacts(b.0, ok, table, batches[1..], b.1, b.2);
      var x := ImportBatches(b.0, ok, table, batches[1..], b.1, b.2);
      var head, tail := ConvertAll(table, batches[0]), ConvertAll(table, Flatten(batches[1..]));
      ConvertAllAppend(table, batches[0], Flatten(batches[1..]));
      ImportedChain(r, b.0, x.0, table, head, tail, b.1 - s, b.2 - e, x.1 - b.1, x.2 - b.2);
    }
  }

  lemma ConvertAllAppend(table: string, a: seq<Row>, b: seq<Row>)
    ensures ConvertAll(table, a + b) == ConvertAll(table, a) + ConvertAll(table, b)
  {
    var l, r := ConvertAll(table, a + b), ConvertAll(table, a) + ConvertAll(table, b);
    forall i | 0 <= i < |a + b| ensures l[i] == r[i] {
      if i < |a| {
        assert (a + b)[i] == a[i];
      } else {
        assert (a + b)[i] == b[i - |a|];
      }
    }
  }

  /** Two imports in a row are one import of both row lists. */
  lemma ImportedChain(r: Remote, r1: Remote, r2: Remote, table: string, head: seq<Row>, tail: seq<Row>,
                      s1: nat, e1: nat, s2: nat, e2: nat)
    requires Imported(r, r1, table, head, s1, e1) && Imported(r1, r2, table, tail, s2, e2)
    ensures Imported(r, r2, table, head + tail, s1 + s2, e1 + e2)
  {
    if table in r.tables && e1 + e2 == 0 && head + tail != [] {
      if head == [] {
        assert r1.tables[table] == r.tables[table];
        assert head + tail == tail;
      } else if tail == [] {
        assert r2.tables[table] == r1.tables[table];
        assert head + tail == head;
      } else {
        AppendAssoc(r.tables[table], head, tail);
      }
    }
  }

  /** Stored plus rejected is the number of rows; only the target table changes, and it
      only grows, by the rows stored; with no rejection every row is stored, converted, in
      its original order; no rows means no request. */
  lemma ImportTableFacts(r: Remote, ok: Net, table: string, data: seq<Row>)
    ensures var x := ImportTable(r, ok, table, data);
      Imported(r, x.0, table, ConvertAll(table, data), x.1, x.2)
    ensures data == [] ==> ImportTable(r, ok, table, data) == (r, 0, 0)
  {
    if data != [] {
      ImportBatchesFacts(r, ok, table, Chunks(data, BatchSize), 0, 0);
      ChunksFlatten(data, BatchSize);
    }
  }

  /** When Supabase accepts every request, each batch of up to 100 rows is one request, so
      ceil(n / 100) requests store everything. */
  lemma {:induction false} AllBatchesAccepted(r: Remote, ok: Net, table: string, data: seq<Row>)
    requires forall k :: ok(k)
    requires table in r.tables
    ensures ImportTable(r, ok, table, data)
         == (Remote(r.tables[table := r.tables[table] + ConvertAll(table, data)],
                    r.calls + (|data| + BatchSize - 1) / BatchSize), |data|, 0)
  {
    if data == [] {
      assert ConvertAll(table, data) == [] && r.tables[table] + [] == r.tables[table];
      assert r.tables[table := r.tables[table] + []] == r.tables;
    } else {
      var x := ImportTable(r, ok, table, data);
      ImportTableFacts(r, ok, table, data);
      AcceptedBatchesCalls(r, ok, table, Chunks(data, BatchSize), 0, 0);
      ChunksCount(data, BatchSize);
      assert x.0.tables == r.tables[table := r.tables[table] + ConvertAll(table, data)];
    }
  }

  lemma {:induction false} AcceptedBatchesCalls(r: Remote, ok: Net, table: string, batches: seq<seq<Row>>, s: nat, e: nat)
    requires forall k :: ok(k)
    requires table in r.tables
    ensures var x := ImportBatches(r, ok, table, batches, s, e);
      x.0.calls == r.calls + |batches| && x.2 == e && table in x.0.tables
    decreases |batches|
  {
    if batches != [] {
      var b := ImportBatch(r, ok, table, batches[0], s, e);
      AcceptedBatchesCalls(b.0, ok, table, batches[1..], b.1, b.2);
    }
  }

  /** When Supabase refuses every request, each batch is tried whole and then row by row:
      nothing is stored, every row is an error, and n + ceil(n / 100) requests go out. */
  lemma {:induction false} AllRequestsRefused(r: Remote, ok: Net, table: string, data: seq<Row>)
    requires forall k :: !ok(k)
    ensures ImportTable(r, ok, table, data)
         == (Remote(r.tables, r.calls + |data| + (|data| + BatchSize - 1) / BatchSize), 0, |data|)
  {
    if data != [] {
      ImportTableFacts(r, ok, table, data);
      RefusedBatchesCalls(r, ok, table, Chunks(data, BatchSize), 0, 0);
      ChunksFlatten(data, BatchSize);
      ChunksCount(data, BatchSize);
    }
  }

  lemma {:induction false} RefusedBatchesCalls(r: Remote, ok: Net, table: string, batches: seq<seq<Row>>, s: nat, e: nat)
    requires forall k :: !ok(k)
    ensures var x := ImportBatches(r, ok, table, batches, s, e);
      x.0 == Remote(r.tables, r.calls + |Flatten(batches)| + |batches|) && x.1 == s
    decreases |batches|
  {
    if batches != [] {
      var rows := ConvertAll(table, batches[0]);
      var ins := Insert(r, ok, table, rows);
      RefusedEachCalls(ins.0, ok, table, rows, s, e);
      var b := ImportBatch(r, ok, table, batches[0], s, e);
      RefusedBatchesCalls(b.0, ok, table, batches[1..], b.1, b.2);
    }
  }

  lemma {:induction false} RefusedEachCalls(r: Remote, ok: Net, table: string, rows: seq<Row>, s: nat, e: nat)
    requires forall k :: !ok(k)
    ensures InsertEach(r, ok, table, rows, s, e) == (Remote(r.tables, r.calls + |rows|), s, e + |rows|)
    decreases |rows|
  {
    if rows != [] {
      RefusedEachCalls(Remote(r.tables, r.calls + 1), ok, table, rows[1..], s, e + 1);
    }
  }

  // ---------------------------------------------------------------------
  // verify_table and migrate_table
  // ---------------------------------------------------------------------

  /** `verify_table`: one counting request; Err: it raised. */
  function Verify(r: Remote, ok: Net, table: string, expected: nat): (Remote, Result<bool>)
  {
    if ok(r.calls) && table in r.tables then (Remote(r.tables, r.calls + 1), Ok(|r.tables[table]| == expected))
    else (Remote(r.tables, r.calls + 1), Err("count request failed"))
  }

  /** The figures `migrate_table` reports for one table. */
  datatype TableStats = TableStats(table: string, exported: nat, imported: nat, errors: nat, verified: bool)

  /** `SELECT * FROM table`; Err: SQLite has no such table. */
  function Export(source: map<string, seq<Row>>, table: string): Result<seq<Row>>
  {
    if table in source then Ok(source[table]) else Err("no such table: " + table)
  }

  /** `migrate_table`: export, import, then count; a failed export or count raises. */
  function MigrateTable(r: Remote, ok: Net, source: map<string, seq<Row>>, table: string): (Remote, Result<TableStats>)
  {
    var data := Export(source, table);
    if data.Err? then (r, Err(data.error))
    else if |data.value| == 0 then (r, Ok(TableStats(table, 0, 0, 0, true)))
    else
      var imp := ImportTable(r, ok, table, data.value);
      var v := Verify(imp.0, ok, table, |data.value|);
      if v.1.Err? then (v.0, Err(v.1.error))
      else (v.0, Ok(TableStats(table, |data.value|, imp.1, imp.2, v.1.value)))
  }

  predicate Balanced(ts: TableStats)
  {
    ts.imported + ts.errors == ts.exported
  }

  /** A table missing from SQLite raises before any request; an empty table is skipped as
      verified; otherwise every exported row is imported or an error, and the table verifies
      exactly when Supabase ends up holding as many rows as were exported — so a table that
      started empty verifies exactly when no row was rejected. */
  lemma MigrateTableFacts(r: Remote, ok: Net, source: map<string, seq<Row>>, table: string)
    ensures var m := MigrateTable(r, ok, source, table);
      && (table !in source ==> m.0 == r && m.1.Err?)
      && (table in source && source[table] == [] ==> m == (r, Ok(TableStats(table, 0, 0, 0, true))))
      && (m.1.Ok? ==>
            && table in source
            && m.1.value.table == table
            && m.1.value.exported == |source[table]|
            && Balanced(m.1.value)
            && (source[table] != [] ==>
                  table in r.tables &&
                  (m.1.value.verified <==> |r.tables[table]| + m.1.value.imported == |source[table]|))
            && (table in r.tables && r.tables[table] == [] ==> (m.1.value.verified <==> m.1.value.errors == 0)))
  {
    if table in source && source[table] != [] {
      ImportTableFacts(r, ok, table, source[table]);
    }
  }

  // ---------------------------------------------------------------------
  // run_migration
  // ---------------------------------------------------------------------

  /** `self.stats`: the per-table figures in insertion order, and the totals. */
  datatype Summary = Summary(tables: seq<TableStats>, totalRows: nat, totalErrors: nat)

  const NoSummary: Summary := Summary([], 0, 0)

  /** `stats['tables'][name] = s`: a table already reported keeps its place. */
  function PutStats(ts: seq<TableStats>, s: TableStats): seq<TableStats>
  {
    if ts == [] then [s]
    else if ts[0].table == s.table then [s] + ts[1..]
    else [ts[0]] + PutStats(ts[1..], s)
  }

  function Names(ts: seq<TableStats>): (r: seq<string>)
    ensures |r| == |ts|
  {
    seq(|ts|, i requires 0 <= i < |ts| => ts[i].table)
  }

  /** A falsy filter (none, or empty) selects every table. */
  predicate Selected(filter: seq<string>, table: string)
  {
    filter == [] || table in filter
  }

  /** The names the filter selects, in the given order. */
  function Selection(order: seq<(string, string)>, filter: seq<string>): seq<string>
  {
    if order == [] then []
    else (if Selected(filter, order[0].0) then [order[0].0] else []) + Selection(order[1..], filter)
  }

  function ImportedSum(ts: seq<TableStats>): nat
  {
    if ts == [] then 0 else ts[0].imported + ImportedSum(ts[1..])
  }

  function ErrorSum(ts: seq<TableStats>): nat
  {
    if ts == [] then 0 else ts[0].errors + ErrorSum(ts[1..])
  }

  function Record(acc: Summary, s: TableStats): Summary
  {
    Summary(PutStats(acc.tables, s), acc.totalRows + s.imported, acc.totalErrors + s.errors)
  }

  /** The loop over the migration order; the first table that raises ends the run. */
  function RunTables(r: Remote, ok: Net, source: map<string, seq<Row>>, order: seq<(string, string)>,
                     filter: seq<string>, acc: Summary): (Remote, Result<Summary>)
    decreases |order|
  {
    if order == [] then (r, Ok(acc))
    else if !Selected(filter, order[0].0) then RunTables(r, ok, source, order[1..], filter, acc)
    else
      var m := MigrateTable(r, ok, source, order[0].0);
      if m.1.Err? then (m.0, Err(m.1.error))
      else RunTables(m.0, ok, source, order[1..], filter, Record(acc, m.1.value))
  }

  /** `run_migration` on a fresh migrator. */
  function RunMigration(r: Remote, ok: Net, source: map<string, seq<Row>>, filter: seq<string>): (Remote, Result<Summary>)
  {
    RunTables(r, ok, source, MigrationOrder, filter, NoSummary)
  }

  lemma PutNew(ts: seq<TableStats>, s: TableStats)
    requires forall k :: 0 <= k < |ts| ==> ts[k].table != s.table
    ensures PutStats(ts, s) == ts + [s]
  {
    if ts != [] {
      PutNew(ts[1..], s);
    }
  }

  /** From `acc` to `s` the run appended one entry per table of `sel`, in order, each
      balanced, and added their imported and error counts to the totals. */
  ghost predicate Extends(acc: Summary, s: Summary, sel: seq<string>)
  {
    && acc.tables <= s.tables
    && var added := s.tables[|acc.tables|..];
    && Names(added) == sel
    && (forall k :: 0 <= k < |added| ==> Balanced(added[k]))
    && s.totalRows == acc.totalRows + ImportedSum(added)
    && s.totalErrors == acc.totalErrors + ErrorSum(added)
  }

  /** None of the names of `ts` is among the tables of `order`. */
  ghost predicate Unnamed(ts: seq<TableStats>, order: seq<(string, string)>)
  {
    forall k, i :: 0 <= k < |ts| && 0 <= i < |order| ==> ts[k].table != order[i].0
  }

  /** From a summary that names none of the tables still to come: the run appends one entry
      per selected table, in order, each balanced, and adds their imported and error counts to
      the totals. */
  lemma {:induction false} RunTablesFacts(r: Remote, ok: Net, source: map<string, seq<Row>>,
                                          order: seq<(string, string)>, filter: seq<string>, acc: Summary)
    requires forall i, j :: 0 <= i < j < |order| ==> order[i].0 != order[j].0
    requires Unnamed(acc.tables, order)
    ensures var res := RunTables(r, ok, source, order, filter, acc);
      res.1.Ok? ==> Extends(acc, res.1.value, Selection(order, filter))
    decreases |order|
  {
    var res := RunTables(r, ok, source, order, filter, acc);
    if order == [] {
      assert res.1.value.tables[|acc.tables|..] == [];
    } else if !Selected(filter, order[0].0) {
      DistinctTail(order);
      RunTablesFacts(r, ok, source, order[1..], filter, acc);
    } else {
      var m := MigrateTable(r, ok, source, order[0].0);
      MigrateTableFacts(r, ok, source, order[0].0);
      if m.1.Ok? {
        var ts := m.1.value;
        var acc' := Record(acc, ts);
        assert forall k :: 0 <= k < |acc.tables| ==> acc.tables[k].table != ts.table;
        PutNew(acc.tables, ts);
        UnnamedAfter(acc.tables, ts, order);
        DistinctTail(order);
        RunTablesFacts(m.0, ok, source, order[1..], filter, acc');
        assert res == RunTables(m.0, ok, source, order[1..], filter, acc');
        SelectedStep(acc, ts, order, filter, res.1);
      }
    }
  }

  lemma DistinctTail(order: seq<(string, string)>)
    requires order != [] && forall i, j :: 0 <= i < j < |order| ==> order[i].0 != order[j].0
    ensures forall i, j :: 0 <= i < j < |order[1..]| ==> order[1..][i].0 != order[1..][j].0
  {
    forall i, j | 0 <= i < j < |order[1..]| ensures order[1..][i].0 != order[1..][j].0 {
      assert order[1..][i] == order[i + 1] && order[1..][j] == order[j + 1];
    }
  }

  /** A selected table whose migration succeeded: its entry is the first one the run appends. */
  lemma SelectedStep(acc: Summary, ts: TableStats, order: seq<(string, string)>, filter: seq<string>,
                     res: Result<Summary>)
    requires order != [] && Selected(filter, order[0].0) && ts.table == order[0].0 && Balanced(ts)
    requires Unnamed(acc.tables, order)
    requires res.Ok? ==> Extends(Record(acc, ts), res.value, Selection(order[1..], filter))
    ensures res.Ok? ==> Extends(acc, res.value, Selection(order, filter))
  {
    assert forall k :: 0 <= k < |acc.tables| ==> acc.tables[k].table != ts.table;
    PutNew(acc.tables, ts);
    if res.Ok? {
      ExtendsCons(acc, ts, res.value, Selection(order[1..], filter));
    }
  }

  /** Recording the first table of the order leaves the rest of the order unnamed. */
  lemma UnnamedAfter(ts: seq<TableStats>, t: TableStats, order: seq<(string, string)>)
    requires order != [] && t.table == order[0].0
    requires forall i, j :: 0 <= i < j < |order| ==> order[i].0 != order[j].0
    requires Unnamed(ts, order)
    ensures Unnamed(ts + [t], order[1..])
  {
    forall k, i | 0 <= k < |ts| + 1 && 0 <= i < |order| - 1
      ensures (ts + [t])[k].table != order[1..][i].0
    {
      if k < |ts| {
        assert ts[k].table != order[i + 1].0;
      } else {
        assert order[0].0 != order[i + 1].0;
      }
    }
  }

  /** An entry appended before a run that extends the summary extends it by one more table. */
  lemma ExtendsCons(acc: Summary, ts: TableStats, s: Summary, sel: seq<string>)
    requires Balanced(ts)
    requires Extends(Summary(acc.tables + [ts], acc.totalRows + ts.imported, acc.totalErrors + ts.errors), s, sel)
    ensures Extends(acc, s, [ts.table] + sel)
  {
    var added := s.tables[|acc.tables|..];
    var rest := s.tables[|acc.tables| + 1..];
    assert added[0] == ts && added[1..] == rest;
    assert Names(added) == [ts.table] + Names(rest);
  }

  /** `run_migration`: the tables migrated are the selected ones in migration order (all nine
      when there is no filter), each with imported + errors == exported, and the totals are
      the sums of the per-table imported and error counts. */
  lemma RunMigrationFacts(r: Remote, ok: Net, source: map<string, seq<Row>>, filter: seq<string>)
    ensures var res := RunMigration(r, ok, source, filter);
      res.1.Ok? ==>
        var s := res.1.value;
        && Names(s.tables) == Selection(MigrationOrder, filter)
        && (forall k :: 0 <= k < |s.tables| ==> Balanced(s.tables[k]))
        && s.totalRows == ImportedSum(s.tables)
        && s.totalErrors == ErrorSum(s.tables)
    ensures filter == [] ==> Selection(MigrationOrder, filter) == seq(9, i requires 0 <= i < 9 => MigrationOrder[i].0)
  {
    MigrationOrderTiers();
    RunFromFresh(r, ok, source, MigrationOrder, filter);
    SelectAll(MigrationOrder);
  }

  /** A run over distinct tables from an empty summary reports exactly the selected tables. */
  lemma RunFromFresh(r: Remote, ok: Net, source: map<string, seq<Row>>, order: seq<(string, string)>,
                     filter: seq<string>)
    requires forall i, j :: 0 <= i < j < |order| ==> order[i].0 != order[j].0
    ensures var res := RunTables(r, ok, source, order, filter, NoSummary);
      res.1.Ok? ==>
        var s := res.1.value;
        && Names(s.tables) == Selection(order, filter)
        && (forall k :: 0 <= k < |s.tables| ==> Balanced(s.tables[k]))
        && s.totalRows == ImportedSum(s.tables)
        && s.totalErrors == ErrorSum(s.tables)
  {
    RunTablesFacts(r, ok, source, order, filter, NoSummary);
    var res := RunTables(r, ok, source, order, filter, NoSummary);
    if res.1.Ok? {
      assert res.1.value.tables[0..] == res.1.value.tables;
    }
  }

  /** With no filter every table of the order is selected. */
  lemma {:induction false} SelectAll(order: seq<(string, string)>)
    ensures Selection(order, []) == seq(|order|, i requires 0 <= i < |order| => order[i].0)
  {
    if order != [] {
      SelectAll(order[1..]);
    }
  }

  // ---------------------------------------------------------------------
  // main
  // ---------------------------------------------------------------------

  /** How `main` ends. `DryRunCrashed`: a table missing from SQLite raised outside any handler. */
  datatype Ending =
    | NoDatabase
    | DryRun(counts: seq<(string, nat)>)
    | DryRunCrashed(error: string)
    | Migrated(summary: Summary)
    | Failed(error: string)

  /** The process exit status; an uncaught exception exits with 1. */
  function ExitCode(e: Ending): int
  {
    match e
    case NoDatabase => 1
    case DryRun(_) => 0
    case DryRunCrashed(_) => 1
    case Migrated(s) => if s.totalErrors > 0 then 1 else 0
    case Failed(_) => 1
  }

  /** The dry run's row counts, table by table, for every table of the order. */
  function DryRunCounts(source: map<string, seq<Row>>, order: seq<(string, string)>): Result<seq<(string, nat)>>
  {
    if order == [] then Ok([])
    else if order[0].0 !in source then Err("no such table: " + order[0].0)
    else
      var rest := DryRunCounts(source, order[1..]);
      if rest.Err? then rest else Ok([(order[0].0, |source[order[0].0]|)] + rest.value)
  }

  /** `main`: the database file must exist; a dry run only exports; otherwise the migration
      runs and any exception it raises is reported as a failure. */
  function Main(dbExists: bool, dryRun: bool, filter: seq<string>, source: map<string, seq<Row>>,
                r: Remote, ok: Net): (Remote, Ending)
  {
    if !dbExists then (r, NoDatabase)
    else if dryRun then
      var counts := DryRunCounts(source, MigrationOrder);
      (r, if counts.Err? then DryRunCrashed(counts.error) else DryRun(counts.value))
    else
      var run := RunMigration(r, ok, source, filter);
      (run.0, if run.1.Err? then Failed(run.1.error) else Migrated(run.1.value))
  }

  /** Exit status 0 means a migration without a single rejected row, or a dry run that found
      every table; a missing database, a dry run and a failure send nothing to Supabase
      except what the failed run sent. A dry run ignores the filter. */
  lemma MainFacts(dbExists: bool, dryRun: bool, filter: seq<string>, source: map<string, seq<Row>>, r: Remote, ok: Net)
    ensures var m := Main(dbExists, dryRun, filter, source, r, ok);
      && (ExitCode(m.1) == 0 <==>
            (m.1.DryRun? || (m.1.Migrated? && ErrorSum(m.1.summary.tables) == 0)))
      && (!dbExists ==> m == (r, NoDatabase))
      && (dbExists && dryRun ==> m.0 == r && m.1 == Main(dbExists, dryRun, [], source, r, ok).1)
      && (m.1.DryRun? ==>
            && |m.1.counts| == |MigrationOrder|
            && forall i :: 0 <= i < |m.1.counts| ==>
                 m.1.counts[i].0 == MigrationOrder[i].0 && m.1.counts[i].0 in source &&
                 m.1.counts[i].1 == |source[m.1.counts[i].0]|)
      && (m.1.DryRunCrashed? <==> dbExists && dryRun && exists i :: 0 <= i < |MigrationOrder| && MigrationOrder[i].0 !in source)
  {
    RunMigrationFacts(r, ok, source, filter);
    DryRunCountsFacts(source, MigrationOrder);
  }

  lemma {:induction false} DryRunCountsFacts(source: map<string, seq<Row>>, order: seq<(string, string)>)
    ensures var c := DryRunCounts(source, order);
      && (c.Err? <==> exists i :: 0 <= i < |order| && order[i].0 !in source)
      && (c.Ok? ==>
            && |c.value| == |order|
            && forall i :: 0 <= i < |order| ==>
                 c.value[i].0 == order[i].0 && order[i].0 in source && c.value[i].1 == |source[order[i].0]|)
    decreases |order|
  {
    if order != [] {
      DryRunCountsFacts(source, order[1..]);
      var c := DryRunCounts(source, order);
      if c.Ok? {
        forall i | 0 <= i < |order| ensures c.value[i].0 == order[i].0 && order[i].0 in source
        {
          if i > 0 {
            assert order[1..][i - 1] == order[i];
          }
        }
      }
      if (exists i :: 0 <= i < |order| && order[i].0 !in source) && order[0].0 in source {
        var i :| 0 <= i < |order| && order[i].0 !in source;
        assert order[1..][i - 1] == order[i];
      }
    }
  }

  /** Counting one list of tables after another: the first missing table decides. */
  lemma {:induction false} DryRunAppend(source: map<string, seq<Row>>, a: seq<(string, string)>, b: seq<(string, string)>)
    ensures DryRunCounts(source, a + b)
         == if DryRunCounts(source, a).Err? then DryRunCounts(source, a)
            else if DryRunCounts(source, b).Err? then DryRunCounts(source, b)
            else Ok(DryRunCounts(source, a).value + DryRunCounts(source, b).value)
    decreases |a|
  {
    if a == [] {
      assert a + b == b;
      if DryRunCounts(source, b).Ok? {
        assert [] + DryRunCounts(source, b).value == DryRunCounts(source, b).value;
      }
    } else {
      assert (a + b)[0] == a[0] && (a + b)[1..] == a[1..] + b;
      DryRunAppend(source, a[1..], b);
      if DryRunCounts(source, a).Ok? && DryRunCounts(source, b).Ok? {
        var h := [(a[0].0, |source[a[0].0]|)];
        assert h + DryRunCounts(source, a[1..]).value + DryRunCounts(source, b).value
            == h + (DryRunCounts(source, a[1..]).value + DryRunCounts(source, b).value);
      }
    }
  }

  // ---------------------------------------------------------------------
  // The migrator object
  // ---------------------------------------------------------------------

  /** `DataMigrator`: the SQLite file it reads, the Supabase client (its state and its
      oracle), and the statistics its runs accumulate. */
  class DataMigrator {
    const source: map<string, seq<Row>>
    const ok: Net
    var remote: Remote
    var stats: Summary

    constructor(source: map<string, seq<Row>>, remote: Remote, ok: Net)
      ensures this.source == source && this.remote == remote && this.ok == ok
      ensures stats == NoSummary
    {
      this.source := source;
      this.remote := remote;
      this.ok := ok;
      stats := NoSummary;
    }

    /** The row-by-row fallback for a batch the server refused. */
    method InsertOneByOne(table: string, rows: seq<Row>, s0: nat, e0: nat) returns (s: nat, e: nat)
      modifies this
      ensures (remote, s, e) == InsertEach(old(remote), ok, table, rows, s0, e0)
      ensures stats == old(stats)
    {
      s, e := s0, e0;
      for i := 0 to |rows|
        invariant stats == old(stats)
        invariant InsertEach(remote, ok, table, rows[i..], s, e) == InsertEach(old(remote), ok, table, rows, s0, e0)
      {
        assert rows[i..][0] == rows[i] && rows[i..][1..] == rows[i + 1..];
        var ins := Insert(remote, ok, table, [rows[i]]);
        remote := ins.0;
        if ins.1 {
          s := s + 1;
        } else {
          e := e + 1;
        }
      }
      assert rows[|rows|..] == [];
    }

    /** The batch's rows converted one by one. */
    method ConvertBatch(table: string, batch: seq<Row>) returns (rows: seq<Row>)
      ensures rows == ConvertAll(table, batch)
    {
      rows := [];
      for i := 0 to |batch|
        invariant rows == ConvertAll(table, batch[..i])
      {
        var row := ConvertBooleanFields(table, batch[i]);
        assert batch[..i + 1] == batch[..i] + [batch[i]];
        rows := rows + [row];
      }
      assert batch[..|batch|] == batch;
    }

    /** `import_table_to_supabase` with the default batch size. */
    method ImportTableToSupabase(table: string, data: seq<Row>) returns (successful: nat, errors: nat)
      modifies this
      ensures (remote, successful, errors) == ImportTable(old(remote), ok, table, data)
      ensures stats == old(stats)
    {
      if data == [] {
        return 0, 0;
      }
      successful, errors := 0, 0;
      var i := 0;
      assert data[0..] == data;
      while i < |data|
        invariant 0 <= i <= |data|
        invariant stats == old(stats)
        invariant ImportBatches(remote, ok, table, Chunks(data[i..], BatchSize), successful, errors)
               == ImportBatches(old(remote), ok, table, Chunks(data, BatchSize), 0, 0)
      {
        var end := if i + BatchSize < |data| then i + BatchSize else |data|;
        ChunksStep(data, i, end, BatchSize);
        var raw := data[i..end];
        var batch := ConvertBatch(table, raw);
        var ins := Insert(remote, ok, table, batch);
        remote := ins.0;
        if ins.1 {
          successful := successful + |raw|;
        } else {
          successful, errors := InsertOneByOne(table, batch, successful, errors);
        }
        i := end;
      }
      assert data[i..] == [];
    }

    /** `verify_table`. */
    method VerifyTable(table: string, expected: nat) returns (verified: Result<bool>)
      modifies this
      ensures (remote, verified) == Verify(old(remote), ok, table, expected)
      ensures stats == old(stats)
    {
      var v := Verify(remote, ok, table, expected);
      remote := v.0;
      verified := v.1;
    }

    /** `migrate_table`. */
    method MigrateOne(table: string) returns (result: Result<TableStats>)
      modifies this
      ensures (remote, result) == MigrateTable(old(remote), ok, source, table)
      ensures stats == old(stats)
    {
      var data := Export(source, table);
      if data.Err? {
        return Err(data.error);
      }
      if |data.value| == 0 {
        return Ok(TableStats(table, 0, 0, 0, true));
      }
      var successful, errors := ImportTableToSupabase(table, data.value);
      var verified := VerifyTable(table, |data.value|);
      if verified.Err? {
        return Err(verified.error);
      }
      result := Ok(TableStats(table, |data.value|, successful, errors, verified.value));
    }

    /** `run_migration`: the statistics accumulate on top of any earlier run's. */
    method Run(filter: seq<string>) returns (result: Result<Summary>)
      modifies this
      ensures (remote, result) == RunTables(old(remote), ok, source, MigrationOrder, filter, old(stats))
      ensures result.Ok? ==> stats == result.value
    {
      var i := 0;
      assert MigrationOrder[0..] == MigrationOrder;
      while i < |MigrationOrder|
        invariant 0 <= i <= |MigrationOrder|
        invariant RunTables(remote, ok, source, MigrationOrder[i..], filter, stats)
               == RunTables(old(remote), ok, source, MigrationOrder, filter, old(stats))
      {
        var table := MigrationOrder[i].0;
        assert MigrationOrder[i..][0] == MigrationOrder[i] && MigrationOrder[i..][1..] == MigrationOrder[i + 1..];
        if Selected(filter, table) {
          var m := MigrateOne(table);
          if m.Err? {
            return Err(m.error);
          }
          stats := Record(stats, m.value);
        }
        i := i + 1;
      }
      assert MigrationOrder[i..] == [];
      result := Ok(stats);
    }
  }

  /** `main`, with the database's existence, the flags and Supabase as parameters. */
  method MigrateDataMain(dbExists: bool, dryRun: bool, filter: seq<string>, source: map<string, seq<Row>>,
                         r: Remote, ok: Net) returns (remote: Remote, ending: Ending, code: int)
    ensures (remote, ending) == Main(dbExists, dryRun, filter, source, r, ok)
    ensures code == ExitCode(ending)
  {
    if !dbExists {
      return r, NoDatabase, 1;
    }
    var migrator := new DataMigrator(source, r, ok);
    if dryRun {
      var counts := DryRunExport(source, MigrationOrder);
      if counts.Err? {
        return r, DryRunCrashed(counts.error), 1;
      }
      return r, DryRun(counts.value), 0;
    }
    var result := migrator.Run(filter);
    remote := migrator.remote;
    if result.Err? {
      ending := Failed(result.error);
    } else {
      ending := Migrated(result.value);
    }
    code := ExitCode(ending);
  }

  /** The dry run: each table of `order` exported and its rows counted, stopping at the first
      table that cannot be exported. */
  method DryRunExport(source: map<string, seq<Row>>, order: seq<(string, string)>)
    returns (counts: Result<seq<(string, nat)>>)
    ensures counts == DryRunCounts(source, order)
  {
    var found: seq<(string, nat)> := [];
    for i := 0 to |order|
      invariant DryRunCounts(source, order[..i]) == Ok(found)
    {
      DryRunStepAt(source, order, i);
      var data := Export(source, order[i].0);
      if data.Err? {
        DryRunStopAt(source, order, i);
        return Err(data.error);
      }
      found := found + [(order[i].0, |data.value|)];
    }
    assert order[..|order|] == order;
    counts := Ok(found);
  }

  /** Table `i` after the tables before it, all of which could be exported. */
  lemma DryRunStepAt(source: map<string, seq<Row>>, order: seq<(string, string)>, i: nat)
    requires i < |order| && DryRunCounts(source, order[..i]).Ok?
    ensures DryRunCounts(source, order[..i + 1])
         == if order[i].0 !in source then Err("no such table: " + order[i].0)
            else Ok(DryRunCounts(source, order[..i]).value + [(order[i].0, |source[order[i].0]|)])
  {
    DryRunAppend(source, order[..i], [order[i]]);
    assert [order[i]][1..] == [];
    assert order[..i + 1] == order[..i] + [order[i]];
    if order[i].0 in source {
      var entry := (order[i].0, |source[order[i].0]|);
      assert DryRunCounts(source, [order[i]]) == Ok([entry] + []);
      assert [entry] + [] == [entry];
    }
  }

  /** A table that cannot be exported ends the dry run. */
  lemma DryRunStopAt(source: map<string, seq<Row>>, order: seq<(string, string)>, i: nat)
    requires i < |order| && DryRunCounts(source, order[..i + 1]).Err?
    ensures DryRunCounts(source, order) == DryRunCounts(source, order[..i + 1])
  {
    DryRunAppend(source, order[..i + 1], order[i + 1..]);
    assert order[..i + 1] + order[i + 1..] == order;
  }
}
