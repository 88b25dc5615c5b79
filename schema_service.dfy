/**
 * `SchemaService` (app/services/schema_service.py): a TTL-guarded cache of
 * the catalog -> schema -> table map read from the query engine, and the
 * text rendering of that map for prompts. The engine's cursor is replaced
 * by the `Engine` oracle: each statement answers `None` where the cursor
 * raises.
 */
module Schema {
  import opened Base
  import opened Text
  import opened Dicts

  /** `settings.SCHEMA_CACHE_TTL`, in seconds (app/config/settings.py:19). */
  const SchemaCacheTtl: int := 3600

  /** Schemas the enumeration never descends into. */
  const SystemSchemas: seq<string> := ["information_schema", "sys"]

  /** One row of `DESCRIBE c.s.t`: name, type and, when the row has it, the third field. */
  datatype ColumnRow = ColumnRow(name: string, dataType: string, comment: Option<string>)

  /** One `{'name', 'type', 'description'}` entry of a table's column list. */
  datatype Column = Column(name: string, dataType: string, description: string)

  /** A table's entry: its columns and `statistics`, whose `row_count` is absent when counting failed. */
  datatype TableInfo = TableInfo(columns: seq<Column>, rowCount: Option<int>)

  type Tables = Dict<TableInfo>
  type Schemas = Dict<Tables>
  type SchemaInfo = Dict<Schemas>

  /** The statements `_fetch_schema` and `_get_table_statistics` send, each `None` when it raises. */
  datatype Engine = Engine(
    catalogs: Option<seq<string>>,
    schemas: string -> Option<seq<string>>,
    tables: (string, string) -> Option<seq<string>>,
    describe: (string, string, string) -> Option<seq<ColumnRow>>,
    rowCount: (string, string, string) -> Option<int>)

  // ----- the cache guard -----

  /** The refresh condition of `get_database_schema`: forced, empty, or older than the TTL (strictly). */
  predicate NeedsRefresh(forceRefresh: bool, now: int, cache: SchemaInfo, timestamp: int) {
    forceRefresh || cache == [] || now - timestamp > SchemaCacheTtl
  }

  // ----- the enumeration, as functions -----

  /** The description stored for a column: its comment, or a generated one when the comment is missing or empty. */
  function Describe(row: ColumnRow, table: string): (c: Column)
    ensures c.name == row.name && c.dataType == row.dataType
    ensures row.comment.Some? && row.comment.value != "" ==> c.description == row.comment.value
    ensures (row.comment.None? || row.comment.value == "") ==>
              c.description == "Column " + row.name + " in table " + table
  {
    var d := match row.comment
      case Some(text) => if text != "" then text else "Column " + row.name + " in table " + table
      case None => "Column " + row.name + " in table " + table;
    Column(row.name, row.dataType, d)
  }

  function Columns(rows: seq<ColumnRow>, table: string): (cs: seq<Column>)
    ensures |cs| == |rows| && forall i :: 0 <= i < |rows| ==> cs[i] == Describe(rows[i], table)
  {
    seq(|rows|, i requires 0 <= i < |rows| => Describe(rows[i], table))
  }

  /** `_get_table_statistics`: the row count, or nothing when counting raised. */
  function TableStatistics(e: Engine, catalog: string, schema: string, table: string): Option<int> {
    e.rowCount(catalog, schema, table)
  }

  /** `schema_info[c][s][t] = ti`, creating the catalog and schema entries when missing. */
  function PutTable(info: SchemaInfo, c: string, s: string, t: string, ti: TableInfo): SchemaInfo {
    var schemas := Get(info, c).GetOr([]);
    var tables := Get(schemas, s).GetOr([]);
    Put(info, c, Put(schemas, s, Put(tables, t, ti)))
  }

  function TableEntry(e: Engine, c: string, s: string, t: string, rows: seq<ColumnRow>): TableInfo {
    TableInfo(Columns(rows, t), TableStatistics(e, c, s, t))
  }

  /** The table loop of one schema: the first failing `DESCRIBE` abandons the rest of the schema. */
  function TablesFrom(e: Engine, c: string, s: string, ts: seq<string>, acc: SchemaInfo): SchemaInfo
    decreases |ts|
  {
    if ts == [] then acc
    else match e.describe(c, s, ts[0])
      case None => acc
      case Some(rows) => TablesFrom(e, c, s, ts[1..], PutTable(acc, c, s, ts[0], TableEntry(e, c, s, ts[0], rows)))
  }

  /** One schema: skipped when it is a system schema, abandoned when `SHOW TABLES` raises. */
  function SchemaStep(e: Engine, c: string, s: string, acc: SchemaInfo): SchemaInfo {
    if s in SystemSchemas then acc
    else match e.tables(c, s)
      case None => acc
      case Some(ts) => TablesFrom(e, c, s, ts, acc)
  }

  function SchemasFrom(e: Engine, c: string, ss: seq<string>, acc: SchemaInfo): SchemaInfo
    decreases |ss|
  {
    if ss == [] then acc else SchemasFrom(e, c, ss[1..], SchemaStep(e, c, ss[0], acc))
  }

  /** The catalog loop: a failing `SHOW SCHEMAS` ends the whole fetch with what has been built. */
  function CatalogsFrom(e: Engine, cs: seq<string>, acc: SchemaInfo): SchemaInfo
    decreases |cs|
  {
    if cs == [] then acc
    else match e.schemas(cs[0])
      case None => acc
      case Some(ss) => CatalogsFrom(e, cs[1..], SchemasFrom(e, cs[0], ss, acc))
  }

  /** What `_fetch_schema` returns; `{}` when `SHOW CATALOGS` raises. */
  function FetchedSchema(e: Engine): SchemaInfo {
    match e.catalogs
    case None => []
    case Some(cs) => CatalogsFrom(e, cs, [])
  }

  // ----- what every fetched map satisfies -----

  /** `ti` is what the fetch builds for table `c.s.t`. */
  predicate Described(e: Engine, c: string, s: string, t: string, ti: TableInfo) {
    e.describe(c, s, t).Some? && ti == TableEntry(e, c, s, t, e.describe(c, s, t).value)
  }

  predicate TablesOk(e: Engine, c: string, s: string, ts: Tables) {
    ts != [] && forall p :: p in ts ==> Described(e, c, s, p.0, p.1)
  }

  predicate SchemasOk(e: Engine, c: string, ss: Schemas) {
    ss != [] && forall p :: p in ss ==> p.0 !in SystemSchemas && TablesOk(e, c, p.0, p.1)
  }

  /**
   * No system schema appears, every catalog and schema entry holds at least
   * one table, and every table entry is the described columns and statistics.
   */
  predicate InfoOk(e: Engine, info: SchemaInfo) {
    forall p :: p in info ==> SchemasOk(e, p.0, p.1)
  }

  lemma PutTableOk(e: Engine, info: SchemaInfo, c: string, s: string, t: string, ti: TableInfo)
    requires InfoOk(e, info) && s !in SystemSchemas && Described(e, c, s, t, ti)
    ensures InfoOk(e, PutTable(info, c, s, t, ti))
  {
    var schemas := Get(info, c).GetOr([]);
    var tables := Get(schemas, s).GetOr([]);
    assert forall p :: p in schemas ==> p.0 !in SystemSchemas && TablesOk(e, c, p.0, p.1);
    assert forall p :: p in tables ==> Described(e, c, s, p.0, p.1);
    var tables' := Put(tables, t, ti);
    assert TablesOk(e, c, s, tables');
    var schemas' := Put(schemas, s, tables');
    assert SchemasOk(e, c, schemas');
  }

  lemma {:induction false} TablesFromOk(e: Engine, c: string, s: string, ts: seq<string>, acc: SchemaInfo)
    requires InfoOk(e, acc) && s !in SystemSchemas
    ensures InfoOk(e, TablesFrom(e, c, s, ts, acc))
    decreases |ts|
  {
    if ts != [] {
      match e.describe(c, s, ts[0])
      case None =>
      case Some(rows) =>
        var ti := TableEntry(e, c, s, ts[0], rows);
        PutTableOk(e, acc, c, s, ts[0], ti);
        TablesFromOk(e, c, s, ts[1..], PutTable(acc, c, s, ts[0], ti));
    }
  }

  lemma {:induction false} SchemasFromOk(e: Engine, c: string, ss: seq<string>, acc: SchemaInfo)
    requires InfoOk(e, acc)
    ensures InfoOk(e, SchemasFrom(e, c, ss, acc))
    decreases |ss|
  {
    if ss != [] {
      var s := ss[0];
      if s !in SystemSchemas && e.tables(c, s).Some? {
        TablesFromOk(e, c, s, e.tables(c, s).value, acc);
      }
      SchemasFromOk(e, c, ss[1..], SchemaStep(e, c, s, acc));
    }
  }

  lemma {:induction false} CatalogsFromOk(e: Engine, cs: seq<string>, acc: SchemaInfo)
    requires InfoOk(e, acc)
    ensures InfoOk(e, CatalogsFrom(e, cs, acc))
    decreases |cs|
  {
    if cs != [] && e.schemas(cs[0]).Some? {
      SchemasFromOk(e, cs[0], e.schemas(cs[0]).value, acc);
      CatalogsFromOk(e, cs[1..], SchemasFrom(e, cs[0], e.schemas(cs[0]).value, acc));
    }
  }

  /** Every map the fetch returns has no system schema, no empty entry and only described tables. */
  lemma FetchedSchemaOk(e: Engine)
    ensures InfoOk(e, FetchedSchema(e))
  {
    if e.catalogs.Some? {
      CatalogsFromOk(e, e.catalogs.value, []);
    }
  }

  /** Table `t` is present under `c.s`. */
  predicate HasTable(info: SchemaInfo, c: string, s: string, t: string) {
    HasKey(Get(Get(info, c).GetOr([]), s).GetOr([]), t)
  }

  lemma PutTableKeeps(info: SchemaInfo, c: string, s: string, t: string, ti: TableInfo, c2: string, s2: string, t2: string)
    ensures HasTable(PutTable(info, c, s, t, ti), c, s, t)
    ensures HasTable(info, c2, s2, t2) ==> HasTable(PutTable(info, c, s, t, ti), c2, s2, t2)
  {
    var schemas := Get(info, c).GetOr([]);
    var tables := Get(schemas, s).GetOr([]);
    GetPut(info, c, Put(schemas, s, Put(tables, t, ti)), c2);
    GetPut(info, c, Put(schemas, s, Put(tables, t, ti)), c);
    GetPut(schemas, s, Put(tables, t, ti), s2);
    GetPut(schemas, s, Put(tables, t, ti), s);
    GetPut(tables, t, ti, t2);
    GetPut(tables, t, ti, t);
  }

  /**
   * A `DESCRIBE` that raises part-way through a schema keeps the tables
   * already added from that schema and adds none of the later ones.
   */
  lemma {:induction false} FailedDescribeKeepsEarlier(e: Engine, c: string, s: string, ts: seq<string>, acc: SchemaInfo, k: nat)
    requires k < |ts| && e.describe(c, s, ts[k]).None?
    ensures TablesFrom(e, c, s, ts, acc) == TablesFrom(e, c, s, ts[..k], acc)
    decreases |ts|
  {
    if k > 0 {
      assert ts[..k][0] == ts[0] && ts[..k][1..] == ts[1..][..k - 1];
      match e.describe(c, s, ts[0])
      case None =>
      case Some(rows) =>
        FailedDescribeKeepsEarlier(e, c, s, ts[1..], PutTable(acc, c, s, ts[0], TableEntry(e, c, s, ts[0], rows)), k - 1);
    }
  }

  /** Tables added earlier are never removed by a later step of the enumeration. */
  lemma {:induction false} TablesFromKeeps(e: Engine, c: string, s: string, ts: seq<string>, acc: SchemaInfo,
                                           c2: string, s2: string, t2: string)
    requires HasTable(acc, c2, s2, t2)
    ensures HasTable(TablesFrom(e, c, s, ts, acc), c2, s2, t2)
    decreases |ts|
  {
    if ts != [] {
      match e.describe(c, s, ts[0])
      case None =>
      case Some(rows) =>
        var ti := TableEntry(e, c, s, ts[0], rows);
        PutTableKeeps(acc, c, s, ts[0], ti, c2, s2, t2);
        TablesFromKeeps(e, c, s, ts[1..], PutTable(acc, c, s, ts[0], ti), c2, s2, t2);
    }
  }

  /** Every table of a schema is added when all its `DESCRIBE`s succeed, whatever the row counts. */
  lemma {:induction false} TablesFromAddsAll(e: Engine, c: string, s: string, ts: seq<string>, acc: SchemaInfo, t: string)
    requires t in ts
    requires forall i :: 0 <= i < |ts| ==> e.describe(c, s, ts[i]).Some?
    ensures HasTable(TablesFrom(e, c, s, ts, acc), c, s, t)
    decreases |ts|
  {
    assert e.describe(c, s, ts[0]).Some?;
    var rows := e.describe(c, s, ts[0]).value;
    var ti := TableEntry(e, c, s, ts[0], rows);
    var acc' := PutTable(acc, c, s, ts[0], ti);
    PutTableKeeps(acc, c, s, ts[0], ti, c, s, t);
    if ts[0] == t {
      if |ts| > 1 {
        TablesFromKeeps(e, c, s, ts[1..], acc', c, s, t);
      }
    } else {
      assert t in ts[1..];
      TablesFromAddsAll(e, c, s, ts[1..], acc', t);
    }
  }

  // ----- the enumeration, as the source runs it -----

  /** `_fetch_schema`: the nested catalog, schema and table loops. */
  method FetchSchema(e: Engine) returns (info: SchemaInfo)
    ensures info == FetchedSchema(e)
  {
    info := [];
    if e.catalogs.None? {
      return;
    }
    var catalogs := e.catalogs.value;
    var i := 0;
    while i < |catalogs|
      invariant 0 <= i <= |catalogs|
      invariant CatalogsFrom(e, catalogs[i..], info) == FetchedSchema(e)
    {
      var catalog := catalogs[i];
      assert catalogs[i..][1..] == catalogs[i + 1..];
      var listed := e.schemas(catalog);
      if listed.None? {
        return;
      }
      var schemas := listed.value;
      ghost var start := info;
      var j := 0;
      while j < |schemas|
        invariant 0 <= j <= |schemas|
        invariant SchemasFrom(e, catalog, schemas[j..], info) == SchemasFrom(e, catalog, schemas, start)
      {
        var schema := schemas[j];
        assert schemas[j..][1..] == schemas[j + 1..];
        ghost var before := info;
        if schema !in SystemSchemas {
          var tables := e.tables(catalog, schema);
          if tables.Some? {
            info := FetchTables(e, catalog, schema, tables.value, info);
          }
        }
        assert info == SchemaStep(e, catalog, schema, before);
        j := j + 1;
      }
      i := i + 1;
    }
  }

  /** The table loop of one schema, left at the first `DESCRIBE` that raises. */
  method FetchTables(e: Engine, catalog: string, schema: string, tables: seq<string>, info0: SchemaInfo)
    returns (info: SchemaInfo)
    ensures info == TablesFrom(e, catalog, schema, tables, info0)
  {
    info := info0;
    var k := 0;
    while k < |tables|
      invariant 0 <= k <= |tables|
      invariant TablesFrom(e, catalog, schema, tables[k..], info) == TablesFrom(e, catalog, schema, tables, info0)
    {
      var table := tables[k];
      assert tables[k..][1..] == tables[k + 1..];
      var rows := e.describe(catalog, schema, table);
      if rows.None? {
        return;
      }
      var stats := TableStatistics(e, catalog, schema, table);
      info := PutTable(info, catalog, schema, table, TableInfo(Columns(rows.value, table), stats));
      k := k + 1;
    }
  }

  // ----- rendering -----

  function ColumnLine(col: Column): string {
    "  - " + col.name + " (" + col.dataType + "): " + col.description
  }

  function RowsText(n: Option<int>): string {
    match n
    case Some(count) => IntToString(count)
    case None => "unknown"
  }

  function ColumnLines(cols: seq<Column>): (ls: seq<string>)
    ensures |ls| == |cols| && forall i :: 0 <= i < |cols| ==> ls[i] == ColumnLine(cols[i])
  {
    seq(|cols|, i requires 0 <= i < |cols| => ColumnLine(cols[i]))
  }

  /** The lines one table contributes to the prompt. */
  function TableBlock(c: string, s: string, t: string, ti: TableInfo): seq<string> {
    ["Table: " + c + "." + s + "." + t + " (Rows: " + RowsText(ti.rowCount) + ")", "Columns:"]
      + ColumnLines(ti.columns) + [""]
  }

  function TablesLines(c: string, s: string, ts: Tables): seq<string>
    decreases |ts|
  {
    if ts == [] then [] else TableBlock(c, s, ts[0].0, ts[0].1) + TablesLines(c, s, ts[1..])
  }

  function SchemasLines(c: string, ss: Schemas): seq<string>
    decreases |ss|
  {
    if ss == [] then [] else TablesLines(c, ss[0].0, ss[0].1) + SchemasLines(c, ss[1..])
  }

  /** The prompt lines of a whole map, table by table in enumeration order. */
  function SchemaLines(info: SchemaInfo): seq<string>
    decreases |info|
  {
    if info == [] then [] else SchemasLines(info[0].0, info[0].1) + SchemaLines(info[1..])
  }

  function RenderSchema(info: SchemaInfo): string {
    Join(SchemaLines(info), "\n")
  }

  predicate NoTables(info: SchemaInfo) {
    forall p, q :: p in info && q in p.1 ==> q.1 == []
  }

  lemma {:induction false} TablesLinesEmpty(c: string, s: string, ts: Tables)
    ensures TablesLines(c, s, ts) == [] <==> ts == []
    ensures TablesLines(c, s, ts) != [""]
  {
    if ts != [] {
      assert |TablesLines(c, s, ts)| >= 3;
    }
  }

  lemma {:induction false} SchemasLinesEmpty(c: string, ss: Schemas)
    ensures SchemasLines(c, ss) == [] <==> forall q :: q in ss ==> q.1 == []
    ensures SchemasLines(c, ss) != [""]
    decreases |ss|
  {
    if ss != [] {
      TablesLinesEmpty(c, ss[0].0, ss[0].1);
      SchemasLinesEmpty(c, ss[1..]);
      if ss[0].1 == [] {
        assert SchemasLines(c, ss) == SchemasLines(c, ss[1..]);
        assert forall q :: q in ss ==> q == ss[0] || q in ss[1..];
      } else {
        assert ss[0] in ss;
      }
    }
  }

  lemma {:induction false} SchemaLinesEmpty(info: SchemaInfo)
    ensures SchemaLines(info) == [] <==> NoTables(info)
    ensures SchemaLines(info) != [""]
    decreases |info|
  {
    if info != [] {
      SchemasLinesEmpty(info[0].0, info[0].1);
      SchemaLinesEmpty(info[1..]);
      assert forall p :: p in info ==> p == info[0] || p in info[1..];
      if SchemasLines(info[0].0, info[0].1) != [] {
        assert info[0] in info;
      }
    }
  }

  /** The prompt text is empty exactly when the map holds no table; in particular `{}` renders as "". */
  lemma RenderEmptyIff(info: SchemaInfo)
    ensures RenderSchema(info) == "" <==> NoTables(info)
  {
    SchemaLinesEmpty(info);
    JoinEmpty(SchemaLines(info), "\n");
  }

  /** A map with one table renders as that table's block. */
  lemma RenderSingleTable(c: string, s: string, t: string, ti: TableInfo)
    ensures SchemaLines([(c, [(s, [(t, ti)])])]) == TableBlock(c, s, t, ti)
  {
    var tables: Tables := [(t, ti)];
    var schemas: Schemas := [(s, tables)];
    var info: SchemaInfo := [(c, schemas)];
    assert info[1..] == [];
    assert schemas[1..] == [];
    assert tables[1..] == [];
    assert SchemaLines(info) == SchemasLines(c, [(s, [(t, ti)])]) + [];
    assert SchemasLines(c, [(s, [(t, ti)])]) == TablesLines(c, s, [(t, ti)]) + [];
    assert TablesLines(c, s, [(t, ti)]) == TableBlock(c, s, t, ti) + [];
  }

  /** `SchemaService`: the cache fields and the two public calls. */
  class SchemaService {
    var schemaCache: SchemaInfo
    var schemaCacheTimestamp: int

    constructor()
      ensures schemaCache == [] && schemaCacheTimestamp == 0
    {
      schemaCache := [];
      schemaCacheTimestamp := 0;
    }

    /**
     * `get_database_schema(force_refresh)` at clock reading `now`: a refresh
     * replaces the cache with whatever the fetch returned, partial or empty.
     */
    method GetDatabaseSchema(forceRefresh: bool, now: int, e: Engine) returns (info: SchemaInfo)
      modifies this
      ensures NeedsRefresh(forceRefresh, now, old(schemaCache), old(schemaCacheTimestamp)) ==>
                schemaCache == FetchedSchema(e) && schemaCacheTimestamp == now
      ensures !NeedsRefresh(forceRefresh, now, old(schemaCache), old(schemaCacheTimestamp)) ==>
                schemaCache == old(schemaCache) && schemaCacheTimestamp == old(schemaCacheTimestamp)
      ensures info == schemaCache
    {
      if NeedsRefresh(forceRefresh, now, schemaCache, schemaCacheTimestamp) {
        schemaCache := FetchSchema(e);
        schemaCacheTimestamp := now;
      }
      info := schemaCache;
    }

    /** `format_schema_for_prompt`: reads the schema through the cache, then renders it line by line. */
    method FormatSchemaForPrompt(now: int, e: Engine) returns (text: string)
      modifies this
      ensures NeedsRefresh(false, now, old(schemaCache), old(schemaCacheTimestamp)) ==>
                schemaCache == FetchedSchema(e) && schemaCacheTimestamp == now
      ensures !NeedsRefresh(false, now, old(schemaCache), old(schemaCacheTimestamp)) ==>
                schemaCache == old(schemaCache) && schemaCacheTimestamp == old(schemaCacheTimestamp)
      ensures text == RenderSchema(schemaCache)
    {
      var info := GetDatabaseSchema(false, now, e);
      var lines := RenderLines(info);
      text := Join(lines, "\n");
    }
  }

  /** The nested loops of `format_schema_for_prompt` that fill `schema_text`: catalogs. */
  method RenderLines(info: SchemaInfo) returns (lines: seq<string>)
    ensures lines == SchemaLines(info)
  {
    lines := [];
    var i := 0;
    while i < |info|
      invariant 0 <= i <= |info|
      invariant lines + SchemaLines(info[i..]) == SchemaLines(info)
    {
      SchemaLinesAt(info, i);
      ghost var prev, block, rest := lines, SchemasLines(info[i].0, info[i].1), SchemaLines(info[i + 1..]);
      lines := AppendSchemas(lines, info[i].0, info[i].1);
      AppendAssoc(prev, block, rest);
      i := i + 1;
    }
  }

  lemma AppendAssoc(a: seq<string>, b: seq<string>, c: seq<string>)
    ensures (a + b) + c == a + (b + c)
  {
  }

  lemma SchemaLinesAt(info: SchemaInfo, i: nat)
    requires i < |info|
    ensures SchemaLines(info[i..]) == SchemasLines(info[i].0, info[i].1) + SchemaLines(info[i + 1..])
  {
    assert info[i..][1..] == info[i + 1..];
  }

  lemma SchemasLinesAt(c: string, ss: Schemas, j: nat)
    requires j < |ss|
    ensures SchemasLines(c, ss[j..]) == TablesLines(c, ss[j].0, ss[j].1) + SchemasLines(c, ss[j + 1..])
  {
    assert ss[j..][1..] == ss[j + 1..];
  }

  lemma TablesLinesAt(c: string, s: string, ts: Tables, k: nat)
    requires k < |ts|
    ensures TablesLines(c, s, ts[k..]) == TableBlock(c, s, ts[k].0, ts[k].1) + TablesLines(c, s, ts[k + 1..])
  {
    assert ts[k..][1..] == ts[k + 1..];
  }

  /** The schema loop for one catalog. */
  method AppendSchemas(lines0: seq<string>, catalog: string, schemas: Schemas) returns (lines: seq<string>)
    ensures lines == lines0 + SchemasLines(catalog, schemas)
  {
    lines := lines0;
    var j := 0;
    while j < |schemas|
      invariant 0 <= j <= |schemas|
      invariant lines + SchemasLines(catalog, schemas[j..]) == lines0 + SchemasLines(catalog, schemas)
    {
      SchemasLinesAt(catalog, schemas, j);
      ghost var prev, block, rest := lines, TablesLines(catalog, schemas[j].0, schemas[j].1), SchemasLines(catalog, schemas[j + 1..]);
      lines := AppendTables(lines, catalog, schemas[j].0, schemas[j].1);
      AppendAssoc(prev, block, rest);
      j := j + 1;
    }
  }

  /** The table loop for one schema. */
  method AppendTables(lines0: seq<string>, catalog: string, schema: string, tables: Tables) returns (lines: seq<string>)
    ensures lines == lines0 + TablesLines(catalog, schema, tables)
  {
    lines := lines0;
    var k := 0;
    while k < |tables|
      invariant 0 <= k <= |tables|
      invariant lines + TablesLines(catalog, schema, tables[k..]) == lines0 + TablesLines(catalog, schema, tables)
    {
      TablesLinesAt(catalog, schema, tables, k);
      ghost var prev, block, rest := lines, TableBlock(catalog, schema, tables[k].0, tables[k].1),
                                     TablesLines(catalog, schema, tables[k + 1..]);
      lines := AppendTableBlock(lines, catalog, schema, tables[k].0, tables[k].1);
      AppendAssoc(prev, block, rest);
      k := k + 1;
    }
  }

  /** The lines `format_schema_for_prompt` appends for one table. */
  method AppendTableBlock(lines0: seq<string>, catalog: string, schema: string, table: string, ti: TableInfo)
    returns (lines: seq<string>)
    ensures lines == lines0 + TableBlock(catalog, schema, table, ti)
  {
    lines := lines0 + ["Table: " + catalog + "." + schema + "." + table + " (Rows: " + RowsText(ti.rowCount) + ")"];
    lines := lines + ["Columns:"];
    var m := 0;
    ghost var head := lines;
    while m < |ti.columns|
      invariant 0 <= m <= |ti.columns|
      invariant lines == head + ColumnLines(ti.columns[..m])
    {
      assert ColumnLines(ti.columns[..m + 1]) == ColumnLines(ti.columns[..m]) + [ColumnLine(ti.columns[m])];
      lines := lines + [ColumnLine(ti.columns[m])];
      m := m + 1;
    }
    assert ti.columns[..m] == ti.columns;
    lines := lines + [""];
  }
}
