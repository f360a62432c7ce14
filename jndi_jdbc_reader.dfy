/** JndiJdbcReader: a reader whose data source is looked up in JNDI when it
    is created. Unlike JdbcReaderFactory it ignores errors only when
    `ignoreMissingDatabase` is exactly "true". */
module JndiJdbcReader {
  import opened Java
  import opened Jdbc

  /** What `initDatabase()` leaves in the `dataSource` field, which held
      `current` before, and how it completes. A name that is not bound
      keeps the field and raises unless ignoring; any other naming error or
      a bound object that is not a DataSource always raises; a found data
      source is then checked like in `checkDatasource`. */
  function InitDatabaseResult(current: Option<DataSource>, jndiName: string, ignore: bool,
                              dir: Directory, db: Database): (Option<DataSource>, Outcome<()>)
  {
    match dir(jndiName)
    case NotFound =>
      if !ignore then (current, Thrown(IllegalArgument("Missing data source.")))
      else ConnectionCheck(current, ignore, db)
    case NamingError => (current, Thrown(IllegalArgument("JNDI error.")))
    case WrongKind => (current, Thrown(IllegalArgument("The JNDI resource is no data source.")))
    case Found(ds) => ConnectionCheck(Some(ds), ignore, db)
  }

  /** For a reader being created (no data source yet): it ends up with a
      data source exactly when the name is bound to one that connects;
      initialisation raises exactly on a naming error, a wrong kind of
      object, or, when not ignoring, a missing name or a failed connection. */
  lemma InitDatabaseSpec(jndiName: string, ignore: bool, dir: Directory, db: Database)
    ensures var (ds, outcome) := InitDatabaseResult(None, jndiName, ignore, dir, db);
            && (ds.Some? <==> dir(jndiName).Found? && db.connects(dir(jndiName).dataSource))
            && (ds.Some? ==> ds.value == dir(jndiName).dataSource)
            && (outcome.Thrown? <==>
                  || dir(jndiName).NamingError? || dir(jndiName).WrongKind?
                  || (!ignore && dir(jndiName).NotFound?)
                  || (!ignore && dir(jndiName).Found? && !db.connects(dir(jndiName).dataSource)))
            && (outcome.Thrown? ==> outcome.exception.IllegalArgument?)
  {
  }

  /** What `createFromSolrParams` leaves in the argument map: the original
      parameter now names the `database` resource, and the reader's own
      keys are consumed. */
  function RewrittenArgs(args: map<string, string>, originalParamName: string): (r: map<string, string>)
    ensures "jndiName" !in r && "sql" !in r && "ignoreMissingDatabase" !in r
    ensures originalParamName !in {"jndiName", "sql", "ignoreMissingDatabase"} ==>
              originalParamName in r && r[originalParamName] == "database"
    ensures forall key :: key in args && key !in {originalParamName, "jndiName", "sql", "ignoreMissingDatabase"}
              ==> key in r && r[key] == args[key]
    ensures r.Keys <= args.Keys + {originalParamName}
  {
    args[originalParamName := "database"] - {"jndiName", "sql", "ignoreMissingDatabase"}
  }

  /** The put and the three removes, one after the other, leave the
      rewritten arguments. */
  lemma RewrittenArgsSteps(args: map<string, string>, originalParamName: string)
    ensures args[originalParamName := "database"] - {"jndiName"} - {"sql"} - {"ignoreMissingDatabase"}
            == RewrittenArgs(args, originalParamName)
  {
  }

  /** `"true".equals(value)`: ignoring is off unless asked for. */
  function IgnoreFlag(value: Option<string>): (ignore: bool)
    ensures ignore <==> value == Some("true")
  {
    value == Some("true")
  }

  class JndiJdbcReader {
    const jndiName: string
    const sql: string
    /** Ignore a missing database? */
    const ignore: bool
    var dataSource: Option<DataSource>

    /** The field assignments of `JndiJdbcReader(jndiName, sql, ignore)`;
        `Create` adds the null checks and `initDatabase()`. */
    constructor (jndiName: string, sql: string, ignore: bool)
      ensures this.jndiName == FixJndiName(jndiName) && this.sql == sql && this.ignore == ignore
      ensures dataSource == None
    {
      this.jndiName := FixJndiName(jndiName);
      this.sql := sql;
      this.ignore := ignore;
      this.dataSource := None;
    }

    /** `new JndiJdbcReader(jndiName, sql, ignore)`: a null name or SQL
        fails `checkNotNull` (the name first); an exception from
        `initDatabase()` means no reader. */
    static method Create(jndiName: Option<string>, sql: Option<string>, ignore: bool, dir: Directory, db: Database)
      returns (result: Outcome<JndiJdbcReader>)
      ensures jndiName.None? || sql.None? ==> result == Thrown(NullPointer)
      ensures jndiName.Some? && sql.Some? ==>
                var (ds, outcome) := InitDatabaseResult(None, FixJndiName(jndiName.value), ignore, dir, db);
                && (outcome.Thrown? ==> result == Thrown(outcome.exception))
                && (outcome.Normal? ==>
                      && result.Normal? && fresh(result.value)
                      && result.value.jndiName == FixJndiName(jndiName.value)
                      && result.value.sql == sql.value && result.value.ignore == ignore
                      && result.value.dataSource == ds)
    {
      if jndiName.None? || sql.None? {
        return Thrown(NullPointer);
      }
      var reader := new JndiJdbcReader(jndiName.value, sql.value, ignore);
      var outcome := reader.InitDatabase(dir, db);
      if outcome.Thrown? {
        return Thrown(outcome.exception);
      }
      result := Normal(reader);
    }

    /** `createFromSolrParams(args, originalParamName)`: points the original
        parameter at the `database` resource, consumes `jndiName`, `sql` and
        `ignoreMissingDatabase`, and creates the reader from them. */
    static method CreateFromSolrParams(args: ArgMap?, originalParamName: string, dir: Directory, db: Database)
      returns (result: Outcome<JndiJdbcReader>)
      modifies args
      ensures args == null ==> result == Thrown(NullPointer)
      ensures args != null ==> args.entries == RewrittenArgs(old(args.entries), originalParamName)
      ensures args != null ==>
                var put := old(args.entries)[originalParamName := "database"];
                var name := Get(put, "jndiName");
                var sql := Get(put, "sql");
                var ignore := IgnoreFlag(Get(put, "ignoreMissingDatabase"));
                && (name.None? || sql.None? ==> result == Thrown(NullPointer))
                && (name.Some? && sql.Some? ==>
                      var (ds, outcome) := InitDatabaseResult(None, FixJndiName(name.value), ignore, dir, db);
                      && (outcome.Thrown? ==> result == Thrown(outcome.exception))
                      && (outcome.Normal? ==>
                            && result.Normal? && fresh(result.value)
                            && result.value.jndiName == FixJndiName(name.value)
                            && result.value.sql == sql.value && result.value.ignore == ignore
                            && result.value.dataSource == ds))
    {
      if args == null {
        return Thrown(NullPointer);
      }
      args.Put(originalParamName, "database");
      var name := args.Remove("jndiName");
      var sql := args.Remove("sql");
      var ignore := args.Remove("ignoreMissingDatabase");
      RewrittenArgsSteps(old(args.entries), originalParamName);
      result := Create(name, sql, IgnoreFlag(ignore), dir, db);
    }

    /** `initDatabase()`: looks the data source up in JNDI and checks its
        connection. */
    method InitDatabase(dir: Directory, db: Database) returns (result: Outcome<()>)
      modifies this
      ensures (dataSource, result) == InitDatabaseResult(old(dataSource), jndiName, ignore, dir, db)
    {
      result := Normal(());
      match dir(jndiName) {
        case NotFound =>
          if !ignore {
            return Thrown(IllegalArgument("Missing data source."));
          }
        case NamingError =>
          return Thrown(IllegalArgument("JNDI error."));
        case WrongKind =>
          return Thrown(IllegalArgument("The JNDI resource is no data source."));
        case Found(ds) =>
          dataSource := Some(ds);
      }
      if dataSource.Some? {
        if !db.connects(dataSource.value) {
          dataSource := None;
          if !ignore {
            result := Thrown(IllegalArgument("Failed to connect to the database."));
          }
        }
      }
    }

    /** `getReader()`: the content of the reader. */
    method GetReader(db: Database) returns (content: Outcome<string>)
      ensures content == ReadContent(dataSource, ignore, sql, db)
    {
      if dataSource.None? {
        if ignore {
          return Normal("");
        }
        return Thrown(IllegalArgument("Missing data source."));
      }
      var runner := QueryRunner(dataSource.value);
      var queried := db.query(runner.dataSource, sql);
      if queried.SqlFailure? {
        return Thrown(IllegalArgument("Failed to load data from the database"));
      }
      var lines := SingleLineResultSetHandler(queried.rows);
      if lines.None? {
        return Thrown(IllegalArgument("Failed to load data from the database"));
      }
      content := JoinCells(lines.value);
    }

    /** `getJdbcRunner()`: a query runner on the data source. */
    method GetJdbcRunner() returns (runner: Outcome<Option<QueryRunner>>)
      ensures runner == RunnerFor(dataSource, ignore)
    {
      if dataSource.None? {
        if ignore {
          return Normal(None);
        }
        return Thrown(IllegalArgument("Missing data source."));
      }
      runner := Normal(Some(QueryRunner(dataSource.value)));
    }

    /** `getSql()`: the SQL the reader was created with. */
    method GetSql() returns (s: string)
      ensures s == sql
    {
      s := sql;
    }
  }
}
