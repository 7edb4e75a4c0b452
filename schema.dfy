/** The schema inspector `QGen._get_tables_schema` and the random table and
    column draws made from the schema it builds. */
module Schema {
  import opened Results
  import opened Dicts
  import opened Random
  import opened Executor

  /** What the engine keeps about a column. */
  datatype ColumnInfo = ColumnInfo(typeName: string, isPrimary: bool)

  type Columns = Dict<ColumnInfo>

  /** `self.tables`: table name to column name to column information. */
  type Tables = Dict<Columns>

  /** One row of `SHOW TABLES`: its values in column order. */
  type TableRow = seq<string>

  /** One row of the `information_schema.columns` query. */
  datatype ColumnRow = ColumnRow(columnName: string, dataType: string, columnKey: string)

  function ColumnEntry(row: ColumnRow): (string, ColumnInfo)
  {
    (row.columnName, ColumnInfo(row.dataType, row.columnKey == "PRI"))
  }

  /** The column dictionary comprehension over the rows of one table. */
  function ColumnsOf(rows: seq<ColumnRow>): Columns
  {
    FromEntries(seq(|rows|, i requires 0 <= i < |rows| => ColumnEntry(rows[i])))
  }

  /** `list(t.values())[0]` for every listing row, in order. */
  function TableNames(rows: seq<TableRow>): (r: Result<seq<string>>)
    ensures r.Success? <==> forall i :: 0 <= i < |rows| ==> |rows[i]| > 0
    ensures r.Failure? ==> r.error == EmptyRow
    ensures r.Success? ==> |r.value| == |rows| && forall i :: 0 <= i < |rows| ==> r.value[i] == rows[i][0]
  {
    if |rows| == 0 then Success([])
    else if |rows[0]| == 0 then Failure(EmptyRow)
    else match TableNames(rows[1..])
      case Failure(e) => Failure(e)
      case Success(names) => Success([rows[0][0]] + names)
  }

  /** The assignments `tables[table] = {...}`, one per table in key order. The
      column query of each table is read from `catalog`; iterating the output
      of one that failed raises TypeError. */
  function FillColumns(names: seq<string>, catalog: string -> Output<ColumnRow>): Result<Tables>
  {
    if |names| == 0 then Success([])
    else if !catalog(names[0]).Fetched? then Failure(NotIterable)
    else match FillColumns(names[1..], catalog)
      case Failure(e) => Failure(e)
      case Success(rest) => Success([(names[0], ColumnsOf(catalog(names[0]).rows))] + rest)
  }

  /** `_get_tables_schema()`, from the `output` entry of the `SHOW TABLES`
      record and those of the column queries. Both queries run with
      `needs_commit=None`, so a failed one leaves `output` as `None`. */
  function TablesSchema(listing: Output<TableRow>, catalog: string -> Output<ColumnRow>): Result<Tables>
  {
    if !listing.Fetched? then Failure(NotIterable)
    else match TableNames(listing.rows)
      case Failure(e) => Failure(e)
      case Success(names) =>
        var tables := FromEntries(seq(|names|, i requires 0 <= i < |names| => (names[i], ())));
        FillColumns(Keys(tables), catalog)
  }

  /** A listing row whose first value is `t`. */
  predicate Listed(rows: seq<TableRow>, t: string)
  {
    exists i :: 0 <= i < |rows| && |rows[i]| > 0 && rows[i][0] == t
  }

  /** The column dictionary of a table: one key per distinct column name,
      holding the data type of the LAST row with that name, and `is_primary`
      exactly when that row's key is `PRI`. */
  lemma ColumnsOfShape(rows: seq<ColumnRow>)
    ensures Valid(ColumnsOf(rows))
    ensures forall c :: c in Keys(ColumnsOf(rows)) <==> exists i :: 0 <= i < |rows| && rows[i].columnName == c
    ensures forall c :: c in Keys(ColumnsOf(rows)) ==>
      exists i :: && 0 <= i < |rows| && rows[i].columnName == c
                  && (forall j :: i < j < |rows| ==> rows[j].columnName != c)
                  && Get(ColumnsOf(rows), c) == ColumnInfo(rows[i].dataType, rows[i].columnKey == "PRI")
  {
    var entries := seq(|rows|, i requires 0 <= i < |rows| => ColumnEntry(rows[i]));
    forall c ensures HasEntry(entries, c) <==> exists i :: 0 <= i < |rows| && rows[i].columnName == c {
      if HasEntry(entries, c) {
        var i :| 0 <= i < |entries| && entries[i].0 == c;
        assert rows[i].columnName == c;
      }
      if exists i :: 0 <= i < |rows| && rows[i].columnName == c {
        var i :| 0 <= i < |rows| && rows[i].columnName == c;
        assert entries[i].0 == c;
      }
    }
    forall c | c in Keys(ColumnsOf(rows))
      ensures exists i :: && 0 <= i < |rows| && rows[i].columnName == c
                          && (forall j :: i < j < |rows| ==> rows[j].columnName != c)
                          && Get(ColumnsOf(rows), c) == ColumnInfo(rows[i].dataType, rows[i].columnKey == "PRI")
    {
      FromEntriesLastWins(entries, c);
      var i :| LastEntry(entries, c, i) && Get(FromEntries(entries), c) == entries[i].1;
      assert forall j :: i < j < |rows| ==> rows[j].columnName != c by {
        forall j | i < j < |rows| ensures rows[j].columnName != c {
          assert entries[j].0 == rows[j].columnName;
        }
      }
    }
  }

  lemma {:induction false} FillColumnsShape(names: seq<string>, catalog: string -> Output<ColumnRow>)
    requires Distinct(names)
    ensures FillColumns(names, catalog).Success? <==> forall t :: t in names ==> catalog(t).Fetched?
    ensures FillColumns(names, catalog).Success? ==>
      var tables := FillColumns(names, catalog).value;
      && Keys(tables) == names
      && forall t :: t in names ==> Get(tables, t) == ColumnsOf(catalog(t).rows)
  {
    if |names| > 0 {
      var rest := names[1..];
      assert Distinct(rest) by {
        forall i, j | 0 <= i < j < |rest| ensures rest[i] != rest[j] {
          assert rest[i] == names[i + 1] && rest[j] == names[j + 1];
        }
      }
      FillColumnsShape(rest, catalog);
      assert forall t :: t in names <==> t == names[0] || t in rest;
      if FillColumns(names, catalog).Success? {
        var tail := FillColumns(rest, catalog).value;
        var tables := FillColumns(names, catalog).value;
        var head := (names[0], ColumnsOf(catalog(names[0]).rows));
        assert tables == [head] + tail;
        assert Keys(tables) == [names[0]] + Keys(tail);
        assert names[0] !in rest by {
          forall j | 0 <= j < |rest| ensures rest[j] != names[0] {
            assert rest[j] == names[j + 1];
          }
        }
        forall t | t in names ensures Get(tables, t) == ColumnsOf(catalog(t).rows) {
          if t != names[0] {
            var i := IndexOf(Keys(tail), t);
            assert IndexOf(Keys(tables), t) == 1 + i;
          }
        }
      }
    }
  }

  /** `_get_tables_schema()` succeeds exactly when both kinds of catalog query
      produced rows and every listing row has a value. Its table keys are then
      the first values of the listing rows, each once, and each table maps to
      the column dictionary built from its own column query. */
  lemma TablesSchemaShape(listing: Output<TableRow>, catalog: string -> Output<ColumnRow>)
    ensures TablesSchema(listing, catalog).Success? <==>
      && listing.Fetched?
      && (forall i :: 0 <= i < |listing.rows| ==> |listing.rows[i]| > 0)
      && (forall t :: Listed(listing.rows, t) ==> catalog(t).Fetched?)
    ensures TablesSchema(listing, catalog).Success? ==>
      var tables := TablesSchema(listing, catalog).value;
      && Valid(tables)
      && (forall t :: t in Keys(tables) <==> Listed(listing.rows, t))
      && (forall t :: t in Keys(tables) ==> Get(tables, t) == ColumnsOf(catalog(t).rows))
  {
    if listing.Fetched? && TableNames(listing.rows).Success? {
      var rows := listing.rows;
      var names := TableNames(rows).value;
      var entries := seq(|names|, i requires 0 <= i < |names| => (names[i], ()));
      var keys := Keys(FromEntries(entries));
      assert forall t :: t in keys <==> Listed(rows, t) by {
        forall t ensures t in keys <==> Listed(rows, t) {
          if t in keys {
            var i :| 0 <= i < |entries| && entries[i].0 == t;
          }
          if Listed(rows, t) {
            var i :| 0 <= i < |rows| && |rows[i]| > 0 && rows[i][0] == t;
            assert entries[i].0 == t;
          }
        }
      }
      FillColumnsShape(keys, catalog);
    }
  }

  /** `_get_random_table()`: a table name drawn from the schema. */
  function RandomTable(tables: Tables, n: nat): (r: Result<string>)
    ensures r.Success? <==> |Keys(tables)| > 0
    ensures r.Success? ==> r.value in Keys(tables)
    ensures r.Failure? ==> r.error == EmptySequence
  {
    Choice(Keys(tables), n)
  }

  /** `_get_random_column(table)`: a column name drawn from one table; the
      lookup `self.tables[table]` raises KeyError for a table the schema does
      not have. */
  function RandomColumn(tables: Tables, table: string, n: nat): (r: Result<string>)
    ensures r.Success? <==> table in Keys(tables) && |Keys(Get(tables, table))| > 0
    ensures r.Success? ==> r.value in Keys(Get(tables, table))
    ensures table !in Keys(tables) ==> r == Failure(KeyError(table))
    ensures table in Keys(tables) && r.Failure? ==> r.error == EmptySequence
  {
    if table in Keys(tables) then Choice(Keys(Get(tables, table)), n) else Failure(KeyError(table))
  }
}
