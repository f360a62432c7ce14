/** What the JDBC readers share: the JNDI directory and the database as
    oracles, the `java:comp/env/` name normalisation, the single-column
    row handler and the newline joining of its rows. */
module Jdbc {
  import opened Java

  /** A javax.sql.DataSource: a connection pool of some class with the
      properties set on it, in the order they were set. */
  datatype DataSource = DataSource(className: string, properties: seq<(string, string)>)

  /** One value of a result column; None is SQL NULL. */
  type Cell = Option<string>

  /** What `QueryRunner.query(sql, handler)` sees: the rows of the result
      set (each the list of its column values), or an SQLException. */
  datatype QueryResult = Rows(rows: seq<seq<Cell>>) | SqlFailure

  /** The database behind the data sources: whether `getConnection()`
      succeeds, and what a query returns. */
  datatype Database = Database(
    connects: DataSource -> bool,
    query: (DataSource, string) -> QueryResult)

  /** What `(DataSource) new InitialContext().lookup(name)` ends with. */
  datatype Binding =
    | Found(dataSource: DataSource)
    | NotFound        // NameNotFoundException
    | NamingError     // any other NamingException
    | WrongKind       // the bound object is not a DataSource: ClassCastException

  /** The JNDI directory, by name. */
  type Directory = string -> Binding

  /** `new QueryRunner(dataSource)`. */
  datatype QueryRunner = QueryRunner(dataSource: DataSource)

  const JndiPrefix: string := "java:comp/env/"

  /** `fixJndiName`: adds the `java:comp/env/` prefix when it is missing. */
  function FixJndiName(jndiName: string): (r: string)
    ensures StartsWith(r, JndiPrefix)
    ensures StartsWith(jndiName, JndiPrefix) ==> r == jndiName
    ensures !StartsWith(jndiName, JndiPrefix) ==> r[|JndiPrefix|..] == jndiName
  {
    if StartsWith(jndiName, JndiPrefix) then jndiName else JndiPrefix + jndiName
  }

  /** Normalising twice is normalising once. */
  lemma FixJndiNameIdempotent(jndiName: string)
    ensures FixJndiName(FixJndiName(jndiName)) == FixJndiName(jndiName)
  {
  }

  /** The column values the single-line handler collects: the first column
      of every row, in row order. None when a row has no first column
      (`getString(1)` raises SQLException). */
  function FirstColumn(rows: seq<seq<Cell>>): (r: Option<seq<Cell>>)
    ensures r.Some? <==> forall i :: 0 <= i < |rows| ==> |rows[i]| > 0
    ensures r.Some? ==> |r.value| == |rows| && forall i :: 0 <= i < |rows| ==> r.value[i] == rows[i][0]
  {
    if forall i :: 0 <= i < |rows| ==> |rows[i]| > 0 then Some(seq(|rows|, i requires 0 <= i < |rows| => rows[i][0]))
    else None
  }

  /** The SINGLE_LINE_RESULT_SET_HANDLER: walks the result set with
      `rs.next()` and appends `rs.getString(1)` of each row. */
  method SingleLineResultSetHandler(rows: seq<seq<Cell>>) returns (result: Option<seq<Cell>>)
    ensures result == FirstColumn(rows)
  {
    var lines: seq<Cell> := [];
    var i := 0;
    while i < |rows|
      invariant 0 <= i <= |rows|
      invariant |lines| == i
      invariant forall j :: 0 <= j < i ==> |rows[j]| > 0 && lines[j] == rows[j][0]
    {
      if |rows[i]| == 0 {
        assert FirstColumn(rows).None?;
        return None;
      }
      lines := lines + [rows[i][0]];
      i := i + 1;
    }
    assert lines == FirstColumn(rows).value;
    result := Some(lines);
  }

  /** Guava `Joiner.on('\n').join(lines)`: the lines separated by single
      newlines, no trailing newline, "" for no lines. */
  function Join(lines: seq<string>): string
    decreases |lines|
  {
    if lines == [] then ""
    else if |lines| == 1 then lines[0]
    else lines[0] + "\n" + Join(lines[1..])
  }

  /** Position of the first occurrence of `c` in `s`, or `|s|`. */
  function IndexOfChar(s: string, c: char): (i: nat)
    ensures i <= |s|
    ensures forall j :: 0 <= j < i ==> s[j] != c
    ensures i < |s| ==> s[i] == c
  {
    if s == [] || s[0] == c then 0 else 1 + IndexOfChar(s[1..], c)
  }

  /** Splitting text at every newline, keeping empty pieces: how a consumer
      reads the joined content back as lines. */
  function Split(s: string): (pieces: seq<string>)
    ensures |pieces| >= 1
    decreases |s|
  {
    var i := IndexOfChar(s, '\n');
    if i == |s| then [s] else [s[..i]] + Split(s[i + 1..])
  }

  predicate NoNewline(line: string) {
    forall j :: 0 <= j < |line| ==> line[j] != '\n'
  }

  /** Round trip: when there is at least one line and no line contains a
      newline, splitting the joined content gives back exactly the lines. */
  lemma {:induction false} SplitJoin(lines: seq<string>)
    requires |lines| >= 1
    requires forall k :: 0 <= k < |lines| ==> NoNewline(lines[k])
    ensures Split(Join(lines)) == lines
    decreases |lines|
  {
    if |lines| == 1 {
      assert IndexOfChar(lines[0], '\n') == |lines[0]|;
    } else {
      var rest := lines[1..];
      assert forall k :: 0 <= k < |rest| ==> NoNewline(rest[k]) by {
        forall k | 0 <= k < |rest| ensures NoNewline(rest[k]) {
          assert rest[k] == lines[k + 1];
        }
      }
      SplitFirstLine(lines[0], Join(rest));
      SplitJoin(rest);
      assert lines == [lines[0]] + rest;
    }
  }

  /** A line without a newline, then a newline: splitting cuts right there. */
  lemma SplitFirstLine(head: string, tail: string)
    requires NoNewline(head)
    ensures Split(head + "\n" + tail) == [head] + Split(tail)
  {
    var s := head + "\n" + tail;
    assert s[|head|] == '\n';
    assert forall j :: 0 <= j < |head| ==> s[j] == head[j];
    assert IndexOfChar(s, '\n') == |head|;
    assert s[..|head|] == head;
    assert s[|head| + 1..] == tail;
  }

  /** The joined content of two rows. */
  lemma JoinTwoRows(r1: string, r2: string)
    ensures Join([r1, r2]) == r1 + "\n" + r2
  {
    assert [r1, r2][1..] == [r2];
  }

  /** The joined content has one character per line character plus one
      newline between consecutive lines. */
  lemma {:induction false} JoinLength(lines: seq<string>)
    requires |lines| >= 1
    ensures |Join(lines)| == TotalLength(lines) + |lines| - 1
    decreases |lines|
  {
    if |lines| > 1 {
      JoinLength(lines[1..]);
    }
  }

  function TotalLength(lines: seq<string>): nat
    decreases |lines|
  {
    if lines == [] then 0 else |lines[0]| + TotalLength(lines[1..])
  }

  /** `Joiner.join` over the collected column values: a SQL NULL among
      them raises NullPointerException. */
  function JoinCells(cells: seq<Cell>): (r: Outcome<string>)
    ensures r.Thrown? <==> exists i :: 0 <= i < |cells| && cells[i].None?
    ensures r.Thrown? ==> r.exception == NullPointer
    ensures r.Normal? ==> r.value == Join(seq(|cells|, i requires 0 <= i < |cells| => cells[i].value))
  {
    if exists i :: 0 <= i < |cells| && cells[i].None? then Thrown(NullPointer)
    else Normal(Join(seq(|cells|, i requires 0 <= i < |cells| => cells[i].value)))
  }

  /** What `getReader()` yields as content for a reader with this data
      source, ignore flag and SQL: no data source gives "" when ignoring
      and raises otherwise; a query failure always raises; otherwise the
      first column of every row, joined by newlines. */
  function ReadContent(dataSource: Option<DataSource>, ignore: bool, sql: string, db: Database): Outcome<string> {
    match dataSource
    case None => if ignore then Normal("") else Thrown(IllegalArgument("Missing data source."))
    case Some(ds) =>
      match db.query(ds, sql)
      case SqlFailure => Thrown(IllegalArgument("Failed to load data from the database"))
      case Rows(rows) =>
        match FirstColumn(rows)
        case None => Thrown(IllegalArgument("Failed to load data from the database"))
        case Some(cells) => JoinCells(cells)
  }

  /** With a data source whose query yields rows of non-null first columns
      without newlines, the content is those values joined by newlines, and
      splitting it at newlines gives them back (for at least one row). */
  lemma ReadContentRows(ds: DataSource, ignore: bool, sql: string, db: Database, values: seq<string>)
    requires db.query(ds, sql).Rows?
    requires |db.query(ds, sql).rows| == |values|
    requires forall i :: 0 <= i < |values| ==>
               |db.query(ds, sql).rows[i]| > 0 && db.query(ds, sql).rows[i][0] == Some(values[i])
    ensures ReadContent(Some(ds), ignore, sql, db) == Normal(Join(values))
    ensures |values| >= 1 && (forall k :: 0 <= k < |values| ==> NoNewline(values[k])) ==>
              Split(ReadContent(Some(ds), ignore, sql, db).value) == values
  {
    var cells := FirstColumn(db.query(ds, sql).rows).value;
    assert seq(|cells|, i requires 0 <= i < |cells| => cells[i].value) == values;
    if |values| >= 1 && (forall k :: 0 <= k < |values| ==> NoNewline(values[k])) {
      SplitJoin(values);
    }
  }

  /** Failures raise: a failed query raises IllegalArgumentException
      whatever the ignore flag, and a missing data source raises exactly
      when errors are not ignored (otherwise the content is empty). */
  lemma ReadContentFailures(dataSource: Option<DataSource>, ignore: bool, sql: string, db: Database)
    ensures dataSource.Some? && db.query(dataSource.value, sql).SqlFailure? ==>
              ReadContent(dataSource, ignore, sql, db) == Thrown(IllegalArgument("Failed to load data from the database"))
    ensures dataSource.None? ==> (ReadContent(dataSource, ignore, sql, db).Thrown? <==> !ignore)
    ensures dataSource.None? && ignore ==> ReadContent(dataSource, ignore, sql, db) == Normal("")
  {
  }

  /** What `getJdbcRunner()` yields: a runner on the data source; without
      one, null when ignoring and IllegalArgumentException otherwise. */
  function RunnerFor(dataSource: Option<DataSource>, ignore: bool): (r: Outcome<Option<QueryRunner>>)
    ensures dataSource.Some? ==> r == Normal(Some(QueryRunner(dataSource.value)))
    ensures dataSource.None? ==> (r.Normal? <==> ignore) && (r.Normal? ==> r.value.None?)
    ensures r.Thrown? ==> r.exception.IllegalArgument?
  {
    match dataSource
    case Some(ds) => Normal(Some(QueryRunner(ds)))
    case None => if ignore then Normal(None) else Thrown(IllegalArgument("Missing data source."))
  }

  /** The connection check of `checkDatasource` and `initDatabase`: the data
      source it leaves and how it completes. A data source whose connection
      fails is dropped, and the failure raises only when not ignoring. */
  function ConnectionCheck(dataSource: Option<DataSource>, ignore: bool, db: Database): (r: (Option<DataSource>, Outcome<()>))
    ensures r.0.Some? <==> dataSource.Some? && db.connects(dataSource.value)
    ensures r.0.Some? ==> r.0 == dataSource
    ensures r.1.Thrown? <==> dataSource.Some? && !db.connects(dataSource.value) && !ignore
    ensures r.1.Thrown? ==> r.1.exception == IllegalArgument("Failed to connect to the database.")
  {
    match dataSource
    case None => (None, Normal(()))
    case Some(ds) =>
      if db.connects(ds) then (dataSource, Normal(()))
      else (None, if ignore then Normal(()) else Thrown(IllegalArgument("Failed to connect to the database.")))
  }
}
