/** JdbcReaderFactory: builds the reader of a database-backed filter
    factory from the factory's arguments. The data source is named by
    `dataSource` and resolved against the JdbcDataSourceFactory registry
    first, then in JNDI under `java:comp/env/`. */
module JdbcReaderFactory {
  import opened Java
  import opened Jdbc
  import JdbcDataSourceFactory
  import R = AbstractJdbcReader

  /** `jndiDataSource(jndiName)`: the data source bound to the name, null
      when the name is not bound, IllegalArgumentException for any other
      naming error or for an object that is not a DataSource. */
  function JndiDataSource(dir: Directory, jndiName: string): (r: Outcome<Option<DataSource>>)
    ensures r.Normal? <==> dir(jndiName).Found? || dir(jndiName).NotFound?
    ensures r.Normal? && r.value.Some? <==> dir(jndiName).Found?
    ensures dir(jndiName).Found? ==> r.value.value == dir(jndiName).dataSource
    ensures r.Thrown? ==> r.exception.IllegalArgument?
  {
    match dir(jndiName)
    case Found(ds) => Normal(Some(ds))
    case NotFound => Normal(None)
    case NamingError => Thrown(IllegalArgument("JNDI error."))
    case WrongKind => Thrown(IllegalArgument("The JNDI resource is no data source."))
  }

  /** The data source `createFromSolrParams` ends up with for a data
      source name (null when none is configured) and ignore flag, given the
      registry's pools and the JNDI directory. */
  function Resolve(registry: map<string, DataSource>, dir: Directory, name: Option<string>, ignore: bool)
    : Outcome<Option<DataSource>>
  {
    match name
    case None => if ignore then Normal(None) else Thrown(IllegalArgument("No data source configured."))
    case Some(n) =>
      if n in registry then Normal(Some(registry[n]))
      else
        match JndiDataSource(dir, FixJndiName(n))
        case Thrown(e) => Thrown(e)
        case Normal(None) => if ignore then Normal(None) else Thrown(IllegalArgument("No data source found."))
        case Normal(Some(ds)) => Normal(Some(ds))
  }

  /** Resolution order and error policy:
      - a pool registered under the name wins, and JNDI is not consulted;
      - otherwise the JNDI binding under the normalised name decides;
      - a JNDI naming error or a wrong kind of object raises whatever the
        ignore flag;
      - a missing name or an unbound one raises exactly when not ignoring,
        and otherwise yields no data source. */
  lemma ResolveSpec(registry: map<string, DataSource>, dir: Directory, name: Option<string>, ignore: bool)
    ensures name.Some? && name.value in registry ==>
              forall other: Directory :: Resolve(registry, other, name, ignore) == Normal(Some(registry[name.value]))
    ensures name.Some? && name.value !in registry ==>
              var binding := dir(FixJndiName(name.value));
              && (binding.Found? ==> Resolve(registry, dir, name, ignore) == Normal(Some(binding.dataSource)))
              && (binding.NamingError? || binding.WrongKind? ==>
                    Resolve(registry, dir, name, ignore).Thrown?
                    && Resolve(registry, dir, name, ignore).exception.IllegalArgument?)
              && (binding.NotFound? ==>
                    Resolve(registry, dir, name, ignore) ==
                      (if ignore then Normal(None) else Thrown(IllegalArgument("No data source found."))))
    ensures name.None? ==>
              Resolve(registry, dir, name, ignore) ==
                (if ignore then Normal(None) else Thrown(IllegalArgument("No data source configured.")))
  {
  }

  /** Resolution never invents a data source: whatever it returns is the
      registered pool or the one bound in JNDI under the normalised name. */
  lemma ResolveSource(registry: map<string, DataSource>, dir: Directory, name: Option<string>, ignore: bool)
    requires Resolve(registry, dir, name, ignore).Normal? && Resolve(registry, dir, name, ignore).value.Some?
    ensures name.Some?
    ensures var ds := Resolve(registry, dir, name, ignore).value.value;
            (name.value in registry && ds == registry[name.value])
            || (name.value !in registry && dir(FixJndiName(name.value)) == Found(ds))
  {
  }

  /** What `createFromSolrParams` leaves in the argument map. */
  function RewrittenArgs(args: map<string, string>, originalParamName: string): (r: map<string, string>)
    ensures "sql" !in r && "ignoreMissingDatabase" !in r && "dataSource" !in r
    ensures originalParamName !in {"sql", "ignoreMissingDatabase", "dataSource"} ==>
              originalParamName in r && r[originalParamName] == "database"
    ensures forall key :: key in args && key !in {originalParamName, "sql", "ignoreMissingDatabase", "dataSource"}
              ==> key in r && r[key] == args[key]
    ensures r.Keys <= args.Keys + {originalParamName}
  {
    args[originalParamName := "database"] - {"sql", "ignoreMissingDatabase", "dataSource"}
  }

  /** The put and the three removes, one after the other, leave the
      rewritten arguments. */
  lemma RewrittenArgsSteps(args: map<string, string>, originalParamName: string)
    ensures args[originalParamName := "database"] - {"sql"} - {"ignoreMissingDatabase"} - {"dataSource"}
            == RewrittenArgs(args, originalParamName)
  {
  }

  /** What `createFromSolrParams` makes of the arguments `args` it is
      handed: the exception it raises, or the data source, SQL and ignore
      flag of the reader it returns. The SimpleJdbcReader constructor runs
      `checkDatasource()`, as AbstractJdbcReader asks of its subclasses. */
  function ReaderOutcome(args: map<string, string>, originalParamName: string,
                         registry: map<string, DataSource>, dir: Directory, db: Database)
    : Outcome<(Option<DataSource>, string, bool)>
  {
    var put := args[originalParamName := "database"];
    var sql := Get(put, "sql");
    var ignore := Get(put, "ignoreMissingDatabase") != Some("false");
    match Resolve(registry, dir, Get(put, "dataSource"), ignore)
    case Thrown(e) => Thrown(e)
    case Normal(resolved) =>
      if sql.None? then Thrown(NullPointer)
      else
        var (checked, outcome) := ConnectionCheck(resolved, ignore, db);
        if outcome.Thrown? then Thrown(outcome.exception) else Normal((checked, sql.value, ignore))
  }

  /** The order of failures and what the reader holds:
      - a resolution failure is raised first;
      - then a missing `sql` raises NullPointerException;
      - then a resolved data source that cannot connect raises
        IllegalArgumentException unless errors are ignored, in which case
        the reader is built without a data source;
      - otherwise the reader holds the resolved data source, the SQL and
        the ignore flag, which is false exactly for the string "false". */
  lemma ReaderOutcomeSpec(args: map<string, string>, originalParamName: string,
                          registry: map<string, DataSource>, dir: Directory, db: Database)
    ensures var put := args[originalParamName := "database"];
            var sql := Get(put, "sql");
            var ignore := Get(put, "ignoreMissingDatabase") != Some("false");
            var resolved := Resolve(registry, dir, Get(put, "dataSource"), ignore);
            var outcome := ReaderOutcome(args, originalParamName, registry, dir, db);
            && (resolved.Thrown? ==> outcome == Thrown(resolved.exception))
            && (resolved.Normal? && sql.None? ==> outcome == Thrown(NullPointer))
            && (resolved.Normal? && sql.Some? ==>
                  && (outcome.Thrown? <==>
                        resolved.value.Some? && !db.connects(resolved.value.value) && !ignore)
                  && (outcome.Thrown? ==> outcome.exception == IllegalArgument("Failed to connect to the database."))
                  && (outcome.Normal? ==>
                        && outcome.value.1 == sql.value
                        && outcome.value.2 == ignore
                        && (outcome.value.0.Some? <==> resolved.value.Some? && db.connects(resolved.value.value))
                        && (outcome.value.0.Some? ==> outcome.value.0 == resolved.value)))
  {
  }

  /** `result` is the reader, or the exception, that `outcome` describes. */
  predicate Describes(outcome: Outcome<(Option<DataSource>, string, bool)>, result: Outcome<R.AbstractJdbcReader>)
    reads if result.Normal? then {result.value} else {}
  {
    && (result.Thrown? <==> outcome.Thrown?)
    && (result.Thrown? ==> result.exception == outcome.exception)
    && (result.Normal? ==> (result.value.dataSource, result.value.sql, result.value.ignore) == outcome.value)
  }

  /** `createFromSolrParams(args, originalParamName)`: points the original
      parameter at the `database` resource, consumes `sql`,
      `ignoreMissingDatabase` and `dataSource`, resolves the data source
      and creates a SimpleJdbcReader, whose constructor fails on a null
      SQL and then checks the data source. */
  method CreateFromSolrParams(args: ArgMap?, originalParamName: string,
                              dataSources: JdbcDataSourceFactory.Registry, dir: Directory, db: Database)
    returns (result: Outcome<R.AbstractJdbcReader>)
    modifies args
    ensures args == null ==> result == Thrown(NullPointer)
    ensures args != null ==> args.entries == RewrittenArgs(old(args.entries), originalParamName)
    ensures args != null ==>
              && Describes(ReaderOutcome(old(args.entries), originalParamName, dataSources.dataSources, dir, db), result)
              && (result.Normal? ==> fresh(result.value))
  {
    if args == null {
      return Thrown(NullPointer);
    }
    args.Put(originalParamName, "database");
    var sql := args.Remove("sql");
    var ignoreString := args.Remove("ignoreMissingDatabase");
    var ignore := ignoreString != Some("false");
    var dataSourceName := args.Remove("dataSource");
    RewrittenArgsSteps(old(args.entries), originalParamName);

    var resolved := ResolveDataSource(dataSources, dir, dataSourceName, ignore);
    if resolved.Thrown? {
      return Thrown(resolved.exception);
    }
    var dataSource := resolved.value;

    if sql.None? {
      return Thrown(NullPointer);
    }
    var reader := new R.AbstractJdbcReader(dataSource, sql.value, ignore);
    var checked := reader.CheckDatasource(db);
    if checked.Thrown? {
      return Thrown(checked.exception);
    }
    result := Normal(reader);
  }

  /** The resolution step of `createFromSolrParams`: the registry first,
      then JNDI, then the ignore flag. */
  method ResolveDataSource(dataSources: JdbcDataSourceFactory.Registry, dir: Directory,
                           dataSourceName: Option<string>, ignore: bool)
    returns (result: Outcome<Option<DataSource>>)
    ensures result == Resolve(dataSources.dataSources, dir, dataSourceName, ignore)
  {
    var dataSource: Option<DataSource> := None;
    if dataSourceName.Some? {
      dataSource := dataSources.LookUp(dataSourceName.value);
      if dataSource.None? {
        var found := JndiDataSource(dir, FixJndiName(dataSourceName.value));
        if found.Thrown? {
          return Thrown(found.exception);
        }
        dataSource := found.value;
      }
      if dataSource.None? && !ignore {
        return Thrown(IllegalArgument("No data source found."));
      }
    } else if !ignore {
      return Thrown(IllegalArgument("No data source configured."));
    }
    result := Normal(dataSource);
  }
}
