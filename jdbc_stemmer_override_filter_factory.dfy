/** JdbcStemmerOverrideFilterFactory: a StemmerOverrideFilterFactory whose
    dictionary is meant to come from the database. Its Lucene superclass is
    constructed from a projection of the arguments onto the two keys it
    understands, computed before JdbcReaderFactory points `dictionary` at
    the `database` resource. */
module JdbcStemmerOverrideFilterFactory {
  import opened Java
  import opened Jdbc
  import JdbcDataSourceFactory
  import JdbcReaderFactory
  import R = AbstractJdbcReader
  import L = JdbcResourceLoader
  import Utf8

  /** The keys StemmerOverrideFilterFactory understands. */
  const SuperclassKeys: seq<string> := ["dictionary", "ignoreCase"]

  /** The superclass's view of the arguments: exactly the entries of
      `dictionary` and `ignoreCase` that are present. */
  function ProjectArgs(args: map<string, string>): (result: map<string, string>)
    ensures forall key :: key in result <==> key in args && key in SuperclassKeys
    ensures forall key :: key in result ==> result[key] == args[key]
  {
    map key | key in args && key in SuperclassKeys :: args[key]
  }

  /** The dictionary resource the superclass loads in `inform`, given the
      arguments it was constructed with. */
  function DictionaryResource(superclassArgs: map<string, string>): Option<string> {
    Get(superclassArgs, "dictionary")
  }

  /** `superclassArgs(args)`: a fresh map with the present values of
      `dictionary` and `ignoreCase`; `args` itself is left alone. */
  method SuperclassArgs(args: ArgMap) returns (result: map<string, string>)
    ensures result == ProjectArgs(args.entries)
  {
    result := map[];
    for i := 0 to |SuperclassKeys|
      invariant forall key :: key in result <==> key in args.entries && key in SuperclassKeys[..i]
      invariant forall key :: key in result ==> result[key] == args.entries[key]
    {
      var arg := SuperclassKeys[i];
      var value := args.Get(arg);
      if value.Some? {
        result := result[arg := value.value];
      }
    }
    assert SuperclassKeys[..|SuperclassKeys|] == SuperclassKeys;
  }

  /** `result` is a factory whose reader is the one `outcome` describes,
      or the exception `outcome` raises. */
  predicate Holds(outcome: Outcome<(Option<DataSource>, string, bool)>, result: Outcome<JdbcStemmerOverrideFilterFactory>)
    reads if result.Normal? then {result.value, result.value.reader} else {}
  {
    && (result.Thrown? <==> outcome.Thrown?)
    && (result.Thrown? ==> result.exception == outcome.exception)
    && (result.Normal? ==>
          (result.value.reader.dataSource, result.value.reader.sql, result.value.reader.ignore) == outcome.value)
  }

  class JdbcStemmerOverrideFilterFactory {
    /** The arguments the StemmerOverrideFilterFactory superclass was
        constructed with. */
    const superclassArgs: map<string, string>
    /** The database-based reader. */
    const reader: R.AbstractJdbcReader

    constructor (superclassArgs: map<string, string>, reader: R.AbstractJdbcReader)
      ensures this.superclassArgs == superclassArgs && this.reader == reader
    {
      this.superclassArgs := superclassArgs;
      this.reader := reader;
    }

    /** `JdbcStemmerOverrideFilterFactory(args)` as written: the superclass
        arguments are projected first, then the reader is created from the
        same arguments with original parameter name `dictionary`, which
        rewrites them. */
    static method Create(args: ArgMap, dataSources: JdbcDataSourceFactory.Registry, dir: Directory, db: Database)
      returns (result: Outcome<JdbcStemmerOverrideFilterFactory>)
      modifies args
      ensures args.entries == JdbcReaderFactory.RewrittenArgs(old(args.entries), "dictionary")
      ensures Holds(JdbcReaderFactory.ReaderOutcome(old(args.entries), "dictionary", dataSources.dataSources, dir, db),
                    result)
      ensures result.Normal? ==> fresh(result.value) && fresh(result.value.reader)
                                 && result.value.superclassArgs == ProjectArgs(old(args.entries))
    {
      var projected := SuperclassArgs(args);
      var reader := JdbcReaderFactory.CreateFromSolrParams(args, "dictionary", dataSources, dir, db);
      if reader.Thrown? {
        return Thrown(reader.exception);
      }
      var factory := new JdbcStemmerOverrideFilterFactory(projected, reader.value);
      result := Normal(factory);
    }

    /** The constructor with the reader created first, as the other
        database-backed filter factories do: the superclass is then
        constructed from the rewritten arguments. */
    static method CreateIntended(args: ArgMap, dataSources: JdbcDataSourceFactory.Registry, dir: Directory, db: Database)
      returns (result: Outcome<JdbcStemmerOverrideFilterFactory>)
      modifies args
      ensures args.entries == JdbcReaderFactory.RewrittenArgs(old(args.entries), "dictionary")
      ensures Holds(JdbcReaderFactory.ReaderOutcome(old(args.entries), "dictionary", dataSources.dataSources, dir, db),
                    result)
      ensures result.Normal? ==> fresh(result.value) && fresh(result.value.reader)
                                 && result.value.superclassArgs == ProjectArgs(args.entries)
                                 && DictionaryResource(result.value.superclassArgs) == Some(L.DatabaseResource)
    {
      var reader := JdbcReaderFactory.CreateFromSolrParams(args, "dictionary", dataSources, dir, db);
      if reader.Thrown? {
        return Thrown(reader.exception);
      }
      var projected := SuperclassArgs(args);
      var factory := new JdbcStemmerOverrideFilterFactory(projected, reader.value);
      result := Normal(factory);
    }

    /** `inform(loader)`: the superclass loads its dictionary, if it has
        one, through a JdbcResourceLoader over the parent loader and this
        factory's reader. */
    method Inform(parent: L.ResourceLoader, db: Database) returns (dictionary: Option<Outcome<seq<Utf8.byte>>>)
      ensures DictionaryResource(superclassArgs).None? ==> dictionary.None?
      ensures DictionaryResource(superclassArgs).Some? ==>
                dictionary == Some(L.OpenResult(parent, L.Content(L.Simple(reader), db),
                                                DictionaryResource(superclassArgs).value))
    {
      var loader := new L.JdbcResourceLoader(parent, L.Simple(reader));
      var name := DictionaryResource(superclassArgs);
      if name.None? {
        return None;
      }
      var stream := loader.OpenResource(name.value, db);
      dictionary := Some(stream);
    }
  }

  /** As written, the superclass is handed the configured `dictionary` (or
      none), never `database`: whenever the configuration names a
      dictionary other than `database`, the superclass loads it from the
      parent loader and the reader's content is never read; with no
      dictionary configured, it loads nothing. */
  lemma ConstructorOrderCounterexample(args: map<string, string>, parent: L.ResourceLoader,
                                       content1: Outcome<string>, content2: Outcome<string>)
    requires "dictionary" in args && args["dictionary"] != L.DatabaseResource
    ensures DictionaryResource(ProjectArgs(args)) == Some(args["dictionary"])
    ensures L.OpenResult(parent, content1, DictionaryResource(ProjectArgs(args)).value)
            == L.OpenResult(parent, content2, DictionaryResource(ProjectArgs(args)).value)
            == parent.open(args["dictionary"])
    ensures DictionaryResource(ProjectArgs(args - {"dictionary"})) == None
  {
  }

  /** With the reader created first, the superclass's dictionary is the
      `database` resource whatever was configured, so loading it yields the
      reader's content as UTF-8, which decodes back to that content; the
      configured `ignoreCase` is kept. */
  lemma IntendedLoadsDatabase(args: map<string, string>, parent: L.ResourceLoader, content: string)
    ensures DictionaryResource(ProjectArgs(JdbcReaderFactory.RewrittenArgs(args, "dictionary"))) == Some(L.DatabaseResource)
    ensures "ignoreCase" in args ==>
              Get(ProjectArgs(JdbcReaderFactory.RewrittenArgs(args, "dictionary")), "ignoreCase") == Some(args["ignoreCase"])
    ensures L.OpenResult(parent, Normal(content), L.DatabaseResource).Normal?
    ensures Utf8.Decode(L.OpenResult(parent, Normal(content), L.DatabaseResource).value) == Some(content)
  {
    L.OpenDatabaseRoundTrip(parent, content);
  }
}
