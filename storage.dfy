/** The per-run SQLite log of poll cycles: `DatabaseManager.init_db` and
    `update_db` (Software/tss/tss_api.py). The database file is modelled
    by its single table, `telemetry`, whose rows are keyed by timestamp. */
module Storage {
  import opened Wrappers
  import opened Json
  import opened Categories

  /** The two kinds of value a row holds: the integer timestamp and JSON text. */
  datatype SqlValue = SqlInt(i: int) | SqlText(t: string)

  /** The `telemetry` table: its column names, in order, and its rows
      by primary key (the timestamp column). */
  datatype Table = Table(columns: seq<string>, rows: map<SqlValue, seq<SqlValue>>)

  /** sqlite3 errors on these statements. */
  datatype StorageError =
    /** CREATE TABLE naming a column twice. */
    | DuplicateColumn
    /** INSERT before the table exists. */
    | NoSuchTable
    /** INSERT with a number of values different from its placeholders. */
    | BindingCountMismatch
    /** IntegrityError: a row with this primary key already exists. */
    | UniqueViolation(key: SqlValue)

  const PrimaryKey: string := "timestamp"

  /** The category keys in enumeration order. */
  function CategoryColumns(): (r: seq<string>)
    ensures |r| == CategoryCount
    ensures forall i :: 0 <= i < |r| ==> r[i] == Key(AllCategories[i])
  {
    seq(|AllCategories|, i requires 0 <= i < |AllCategories| => Key(AllCategories[i]))
  }

  /** The table's columns: the primary key, then one JSON column per category. */
  function Columns(): seq<string>
  {
    [PrimaryKey] + CategoryColumns()
  }

  predicate Distinct(s: seq<string>)
  {
    forall i, j :: 0 <= i < j < |s| ==> s[i] != s[j]
  }

  /** `CREATE TABLE IF NOT EXISTS telemetry(...)` with the given columns.
      SQLite refuses two column names that differ only in letter case;
      `Distinct` compares names exactly, which is the same test for the
      all-lowercase names init_db uses. */
  function CreateTable(db: Option<Table>, columns: seq<string>): (r: Result<Option<Table>, StorageError>)
    ensures db.Some? ==> r == Success(db)
    ensures db.None? ==> (r.Success? <==> Distinct(columns))
    ensures db.None? && r.Success? ==> r.value == Some(Table(columns, map[]))
  {
    if db.Some? then Success(db)
    else if Distinct(columns) then Success(Some(Table(columns, map[])))
    else Failure(DuplicateColumn)
  }

  /** What init_db does to the database file. */
  function InitTable(db: Option<Table>): Result<Option<Table>, StorageError>
  {
    CreateTable(db, Columns())
  }

  /** The fourteen column names are distinct: the category values are
      distinct and none of them is "timestamp". */
  lemma ColumnsDistinct()
    ensures |Columns()| == CategoryCount + 1
    ensures Distinct(Columns())
  {
    var cols := Columns();
    forall i, j | 0 <= i < j < |cols| ensures cols[i] != cols[j] {
      if i == 0 {
        var c := AllCategories[j - 1];
        assert cols[j] == Key(c);
        assert Key(c) != PrimaryKey by { assert FromKey(PrimaryKey).None?; FromKeyOfKey(c); }
      } else {
        AllCategoriesComplete(AllCategories[0]);
        KeyInjective(AllCategories[i - 1], AllCategories[j - 1]);
      }
    }
  }

  /** On a fresh database file init_db creates an empty table with the
      primary key and the thirteen category columns; run again it
      changes nothing. */
  lemma InitTableFresh()
    ensures InitTable(None) == Success(Some(Table(Columns(), map[])))
    ensures InitTable(Some(Table(Columns(), map[]))) == Success(Some(Table(Columns(), map[])))
  {
    ColumnsDistinct();
  }

  lemma InitTableIdempotent(db: Option<Table>)
    requires InitTable(db).Success?
    ensures InitTable(InitTable(db).value) == InitTable(db)
  {
  }

  /** `json.dumps(data.get(category))` for one category. */
  function DumpCategory(data: map<Category, Json>, c: Category, dumps: Json -> string): string
  {
    dumps(if c in data then data[c] else JNull)
  }

  /** update_db's `values`: the timestamp, then each category's JSON text
      in enumeration order. */
  function RowValues(timestamp: int, data: map<Category, Json>, dumps: Json -> string): seq<SqlValue>
  {
    [SqlInt(timestamp)] +
    seq(|AllCategories|, i requires 0 <= i < |AllCategories| => SqlText(DumpCategory(data, AllCategories[i], dumps)))
  }

  /** The serialiser keeps Python's `json.dumps(None) == "null"`. */
  predicate DumpsNull(dumps: Json -> string) { dumps(JNull) == "null" }

  /** The row has fourteen values, one per column: the timestamp first,
      then category c's JSON at position 1 + its index; a category absent
      from the data is stored as "null". */
  lemma RowShape(timestamp: int, data: map<Category, Json>, dumps: Json -> string, c: Category)
    ensures |RowValues(timestamp, data, dumps)| == |Columns()| == CategoryCount + 1
    ensures RowValues(timestamp, data, dumps)[0] == SqlInt(timestamp)
    ensures Columns()[Index(c) + 1] == Key(c)
    ensures c in data ==> RowValues(timestamp, data, dumps)[Index(c) + 1] == SqlText(dumps(data[c]))
    ensures c !in data && DumpsNull(dumps) ==> RowValues(timestamp, data, dumps)[Index(c) + 1] == SqlText("null")
  {
  }

  /** `INSERT INTO telemetry (timestamp, <categories>) VALUES (?, ...)`:
      the primary key is the first value. */
  function Insert(db: Option<Table>, values: seq<SqlValue>): (r: Result<Table, StorageError>)
    ensures r.Success? ==> db.Some? && |values| == |Columns()| && values[0] !in db.value.rows
    ensures r.Success? ==> r.value == Table(db.value.columns, db.value.rows[values[0] := values])
    ensures db.Some? && |values| == |Columns()| && values[0] in db.value.rows ==>
              r == Failure(UniqueViolation(values[0]))
  {
    if db.None? then Failure(NoSuchTable)
    else if |values| != |Columns()| then Failure(BindingCountMismatch)
    else if values[0] in db.value.rows then Failure(UniqueViolation(values[0]))
    else Success(Table(db.value.columns, db.value.rows[values[0] := values]))
  }

  /** What update_db(timestamp, data) does to the database file. */
  function InsertCycle(db: Option<Table>, timestamp: int, data: map<Category, Json>, dumps: Json -> string)
    : Result<Table, StorageError>
  {
    Insert(db, RowValues(timestamp, data, dumps))
  }

  /** A cycle's row goes in whenever the table exists and holds no row
      with that timestamp yet. */
  lemma InsertFreshTimestamp(db: Option<Table>, timestamp: int, data: map<Category, Json>,
                             dumps: Json -> string)
    requires db.Some? && SqlInt(timestamp) !in db.value.rows
    ensures InsertCycle(db, timestamp, data, dumps).Success?
    ensures InsertCycle(db, timestamp, data, dumps).value.rows.Keys == db.value.rows.Keys + {SqlInt(timestamp)}
  {
    RowShape(timestamp, data, dumps, RoverTelemetry);
  }

  /** The stored value of one category in the row with this timestamp. */
  function Retrieve(t: Table, timestamp: int, c: Category): Option<SqlValue>
  {
    var k := SqlInt(timestamp);
    if k in t.rows && Index(c) + 1 < |t.rows[k]| then Some(t.rows[k][Index(c) + 1]) else None
  }

  /** A second row with the same timestamp is refused, not overwritten. */
  lemma DuplicateTimestampFails(db: Option<Table>, timestamp: int, first: map<Category, Json>,
                                second: map<Category, Json>, dumps: Json -> string)
    requires InsertCycle(db, timestamp, first, dumps).Success?
    ensures InsertCycle(Some(InsertCycle(db, timestamp, first, dumps).value), timestamp, second, dumps)
            == Failure(UniqueViolation(SqlInt(timestamp)))
  {
  }

  /** Rows with distinct timestamps are kept side by side, each category
      independently retrievable. */
  lemma DistinctTimestampsKept(db: Option<Table>, t1: int, d1: map<Category, Json>,
                               t2: int, d2: map<Category, Json>, dumps: Json -> string, c: Category)
    requires t1 != t2
    requires InsertCycle(db, t1, d1, dumps).Success?
    requires SqlInt(t2) !in db.value.rows
    ensures InsertCycle(Some(InsertCycle(db, t1, d1, dumps).value), t2, d2, dumps).Success?
    ensures var t := InsertCycle(Some(InsertCycle(db, t1, d1, dumps).value), t2, d2, dumps).value;
            Retrieve(t, t1, c) == Some(SqlText(DumpCategory(d1, c, dumps))) &&
            Retrieve(t, t2, c) == Some(SqlText(DumpCategory(d2, c, dumps)))
  {
    RowShape(t1, d1, dumps, c);
    RowShape(t2, d2, dumps, c);
  }

  /** DatabaseManager: the database file it writes, by its table (None
      until init_db has created it). A new manager is assumed to start from
      a file with no table; its second-resolution, yearless file name can
      reopen an earlier run's file, which this model does not cover. */
  class DatabaseManager {
    var db: Option<Table>

    constructor ()
      ensures db.None?
    {
      db := None;
    }

    method InitDb() returns (err: Option<StorageError>)
      modifies this
      ensures InitTable(old(db)).Success? ==> err.None? && db == InitTable(old(db)).value
      ensures InitTable(old(db)).Failure? ==> err == Some(InitTable(old(db)).error) && db == old(db)
    {
      match InitTable(db)
      case Success(d) => db, err := d, None;
      case Failure(e) => err := Some(e);
    }

    /** update_db: inserts and commits the row, or raises and leaves the
        file as it was. */
    method UpdateDb(timestamp: int, data: map<Category, Json>, dumps: Json -> string)
      returns (err: Option<StorageError>)
      modifies this
      ensures InsertCycle(old(db), timestamp, data, dumps).Success? ==>
                err.None? && db == Some(InsertCycle(old(db), timestamp, data, dumps).value)
      ensures InsertCycle(old(db), timestamp, data, dumps).Failure? ==>
                err == Some(InsertCycle(old(db), timestamp, data, dumps).error) && db == old(db)
    {
      match InsertCycle(db, timestamp, data, dumps)
      case Success(t) => db, err := Some(t), None;
      case Failure(e) => err := Some(e);
    }
  }
}
