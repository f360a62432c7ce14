/** AbstractJdbcReader: a reader of newline-separated configuration lines
    from the first column of an SQL query on a data source. The concrete
    SimpleJdbcReader that JdbcReaderFactory builds is this class created
    with a data source, the SQL and the ignore flag, followed by
    `checkDatasource()`, as the constructor's documentation asks of
    subclasses. */
module AbstractJdbcReader {
  import opened Java
  import opened Jdbc

  class AbstractJdbcReader {
    const sql: string
    /** Ignore a missing database? */
    const ignore: bool
    var dataSource: Option<DataSource>

    /** `new SimpleJdbcReader(dataSource, sql, ignore)` through the
        `AbstractJdbcReader(sql, ignore)` constructor. `checkNotNull(sql)`
        is the caller's: a null SQL never reaches this constructor. */
    constructor (dataSource: Option<DataSource>, sql: string, ignore: bool)
      ensures this.dataSource == dataSource && this.sql == sql && this.ignore == ignore
    {
      this.sql := sql;
      this.ignore := ignore;
      this.dataSource := dataSource;
    }

    /** `checkDatasource()`: opens a connection to check the data source; a
        failing one is dropped, and the failure raises only when errors are
        not ignored. */
    method CheckDatasource(db: Database) returns (result: Outcome<()>)
      modifies this
      ensures (dataSource, result) == ConnectionCheck(old(dataSource), ignore, db)
    {
      result := Normal(());
      if dataSource.Some? {
        if !db.connects(dataSource.value) {
          dataSource := None;
          if !ignore {
            result := Thrown(IllegalArgument("Failed to connect to the database."));
          }
        }
      }
    }

    /** `getReader()`: the content of the reader. */
    method GetReader(db: Database) returns (content: Outcome<string>)
      ensures content == ReadContent(dataSource, ignore, sql, db)
    {
      if dataSource.None? {
        if ignore {
          return Normal("");
        }
        return Thrown(IllegalArgument("Missing data source."));
      }
      var runner := QueryRunner(dataSource.value);
      var queried := db.query(runner.dataSource, sql);
      if queried.SqlFailure? {
        return Thrown(IllegalArgument("Failed to load data from the database"));
      }
      var lines := SingleLineResultSetHandler(queried.rows);
      if lines.None? {
        return Thrown(IllegalArgument("Failed to load data from the database"));
      }
      content := JoinCells(lines.value);
    }

    /** `getJdbcRunner()`: a query runner on the data source. */
    method GetJdbcRunner() returns (runner: Outcome<Option<QueryRunner>>)
      ensures runner == RunnerFor(dataSource, ignore)
    {
      if dataSource.None? {
        if ignore {
          return Normal(None);
        }
        return Thrown(IllegalArgument("Missing data source."));
      }
      runner := Normal(Some(QueryRunner(dataSource.value)));
    }

    /** `getSql()`: the SQL the reader was created with. */
    method GetSql() returns (s: string)
      ensures s == sql
    {
      s := sql;
    }
  }
}
