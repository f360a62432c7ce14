# solr-jdbc in Dafny

A model of the core of solr-jdbc, a set of Solr plugins that feed analysis
configuration (synonyms, stop words, stemmer overrides) from SQL queries
instead of files. The core has three parts.

- **Bean registries.** `ConfiguringHttpShardHandlerFactory` (strict) and
  `ConfiguringHttShardHandlerFactory` (lenient, `ignoreErrors`) create
  beans by reflection from a `beans` NamedList and register them by name
  in a process-wide map.
- **Data sources and readers.** `JdbcDataSourceFactory` creates a named
  connection pool from the `pool`-prefixed arguments of a schema field type.
  `JdbcReaderFactory` resolves a data source, from that registry first and
  then JNDI under `java:comp/env/`, and builds a reader. `JndiJdbcReader`
  looks its data source up in JNDI and checks the connection.
  `AbstractJdbcReader` runs the SQL and joins the first column of every row
  with newlines.
- **Plumbing into Lucene.** `JdbcResourceLoader` serves the reader's
  content, as UTF-8, for the resource named `database`, and delegates every
  other request to its parent. `SearcherAwareReloader` informs SearcherAware
  field types and token filter factories of a new searcher.
  `JdbcStemmerOverrideFilterFactory` wires a reader into Lucene's
  StemmerOverrideFilterFactory.

One Dafny module per Java class, plus three shared modules:

- `Java`: null, exceptions, NamedList values, a mutable `Map<String,String>` (`ArgMap`), `startsWith`, `WordUtils.uncapitalize`.
- `Beans`: NamedList `remove`/`get`, bean instantiation and property setting.
- `Jdbc`: data sources, the JNDI directory and the database as oracles, name normalisation, the row handler and the newline join.

UTF-8 (module `Utf8`) follows RFC 3629.

Conventions of the model:

- **Static maps.** Each static map becomes the field of one registry object (`Registry`), updated by its methods.
- **Oracles.** Reflection (`Class.forName`, `newInstance`, `instanceof DataSource`, BeanUtils `setProperty`), JNDI lookups, database connections and queries, and the parent resource loader are parameters.
- **Nulls and exceptions.** A nullable value is `Option`. A call that can throw returns an `Outcome`: either `Normal` or `Thrown` with the exception.
- **Object identity.** Field types, analyzers and factories carry numeric ids. The reloader's `trace` records which objects were informed, in order.

## Model

Paths are relative to the repository root.

| member | source | states |
|---|---|---|
| Java.Uncapitalize | src/main/java/com/s24/search/solr/analysis/jdbc/JdbcDataSourceFactory.java:103 | `WordUtils.uncapitalize` keeps the length of the string |
| Java.UncapitalizeSpec | src/main/java/com/s24/search/solr/analysis/jdbc/JdbcDataSourceFactory.java:103 | the first character of every word is lower-cased: the first character and every character after whitespace; a character after a non-whitespace one is kept; a single word has only its first character lower-cased |
| Java.ToLower | src/main/java/com/s24/search/solr/analysis/jdbc/JdbcDataSourceFactory.java:103 | ASCII upper-case letters map to their lower-case letter (32 apart), every other character is unchanged |
| Java.ArgMap.constructor | src/main/java/com/s24/search/solr/analysis/jdbc/JdbcReaderFactory.java:39 | the map holds exactly the given entries |
| Java.ArgMap.Get | src/main/java/com/s24/search/solr/analysis/jdbc/JdbcStemmerOverrideFilterFactory.java:46 | the value of the key, or null exactly when the key is absent |
| Java.ArgMap.Put | src/main/java/com/s24/search/solr/analysis/jdbc/JdbcReaderFactory.java:44 | the key is bound to the new value and nothing else changes |
| Java.ArgMap.Remove | src/main/java/com/s24/search/solr/analysis/jdbc/JdbcReaderFactory.java:46-50 | returns the removed value, or null exactly when the key was absent; the key is gone and nothing else changes |
| Utf8.DecodeEncodeChar | src/main/java/com/s24/search/solr/analysis/jdbc/JdbcResourceLoader.java:56 | decoding the UTF-8 octets of one character, followed by anything, gives that character and its width |
| Utf8.DecodeEncode | src/main/java/com/s24/search/solr/analysis/jdbc/JdbcResourceLoader.java:56 | decoding the UTF-8 encoding of any string gives the string back |
| Utf8.EncodeInjective | src/main/java/com/s24/search/solr/analysis/jdbc/JdbcResourceLoader.java:56 | different strings have different UTF-8 encodings |
| Beans.RemoveFirst | src/main/java/com/s24/search/solr/ConfiguringHttpShardHandlerFactory.java:141 | `NamedList.remove` finds nothing exactly when no entry has the name (list unchanged); otherwise it returns the first such entry's value and drops exactly that entry |
| Beans.GetFirst | src/main/java/com/s24/search/solr/ConfiguringHttpShardHandlerFactory.java:103 | `NamedList.get` returns what `remove` would return |
| Beans.RemoveFirstLeavesNone | src/main/java/com/s24/search/solr/ConfiguringHttpShardHandlerFactory.java:141 | removing the only entry of a name leaves no entry of that name |
| Beans.RemoveFirstKeepsOther | src/main/java/com/s24/search/solr/ConfiguringHttShardHandlerFactory.java:125 | removing an entry of one name keeps another name absent, or present at most once |
| Beans.Instantiate | src/main/java/com/s24/search/solr/ConfiguringHttpShardHandlerFactory.java:141-152 | instantiation succeeds exactly for a string class entry of an instantiable class, giving a bean of that class with no properties; a non-string, non-null entry fails the cast |
| Beans.ConfigureSpec | src/main/java/com/s24/search/solr/ConfiguringHttpShardHandlerFactory.java:154-162 | configuring succeeds exactly when every property is accepted, and then the bean carries all of them in list order after its earlier ones, class unchanged |
| Beans.ConfigureStopsAtFirstFailure | src/main/java/com/s24/search/solr/ConfiguringHttpShardHandlerFactory.java:154-162 | after an accepted prefix, the first rejected property fails configuration whatever follows it |
| ConfiguringHttpShardHandlerFactory.CreateBeanSpec | src/main/java/com/s24/search/solr/ConfiguringHttpShardHandlerFactory.java:140-165 | createBean succeeds exactly when the first `class` entry names an instantiable class and every other entry is a settable property; the bean is that class with those entries in order |
| ConfiguringHttpShardHandlerFactory.CreateBeanFailuresRaise | src/main/java/com/s24/search/solr/ConfiguringHttpShardHandlerFactory.java:149-161 | an uninstantiable class raises "Failed to instantiate bean."; a rejected property raises "Failed to configure bean." |
| ConfiguringHttpShardHandlerFactory.RegisterSpec | src/main/java/com/s24/search/solr/ConfiguringHttpShardHandlerFactory.java:121-132 | a failed creation leaves the map unchanged and propagates; a duplicate name is overwritten with the new bean and then raises IllegalStateException |
| ConfiguringHttpShardHandlerFactory.CollectedKeys | src/main/java/com/s24/search/solr/ConfiguringHttpShardHandlerFactory.java:105-109 | the beans collected from a list are keyed by exactly the list's names |
| ConfiguringHttpShardHandlerFactory.CollectedValues | src/main/java/com/s24/search/solr/ConfiguringHttpShardHandlerFactory.java:105-109 | with distinct names, each name is bound to the bean of its own definition |
| ConfiguringHttpShardHandlerFactory.InitRegistersAll | src/main/java/com/s24/search/solr/ConfiguringHttpShardHandlerFactory.java:101-113 | init over fresh, distinct, creatable definitions completes and the map becomes the old map plus one bean per definition |
| ConfiguringHttpShardHandlerFactory.InitStopsAtFirstFailure | src/main/java/com/s24/search/solr/ConfiguringHttpShardHandlerFactory.java:105-109 | the first failing entry ends init with its exception; the beans registered before it stay and later entries are not looked at |
| ConfiguringHttpShardHandlerFactory.ConsumedDefinitionCannotBeReused | src/main/java/com/s24/search/solr/ConfiguringHttpShardHandlerFactory.java:141-152 | `remove("class")` changes the caller's definition in place: once consumed, a definition with one `class` entry can no longer create its bean ("Failed to instantiate bean.") |
| ConfiguringHttpShardHandlerFactory.InitConsumesDefinitions | src/main/java/com/s24/search/solr/ConfiguringHttpShardHandlerFactory.java:104-110 | init keeps the list's names and order and every non-definition entry; after a completed init every definition has lost its first `class` entry |
| ConfiguringHttpShardHandlerFactory.InitStep | src/main/java/com/s24/search/solr/ConfiguringHttpShardHandlerFactory.java:104-110 | a successfully registered entry moves the loop on by one entry, with the map after it and that entry consumed |
| ConfiguringHttpShardHandlerFactory.InitStop | src/main/java/com/s24/search/solr/ConfiguringHttpShardHandlerFactory.java:104-110 | an exception from an entry ends init with it and leaves that entry consumed and the later ones untouched |
| ConfiguringHttpShardHandlerFactory.UnfoldAt | src/main/java/com/s24/search/solr/ConfiguringHttpShardHandlerFactory.java:104-110 | the outcome of init and the list it leaves, from one entry on, follow from registering that entry |
| ConfiguringHttpShardHandlerFactory.Registry.constructor | src/main/java/com/s24/search/solr/ConfiguringHttpShardHandlerFactory.java:51 | the bean map starts empty |
| ConfiguringHttpShardHandlerFactory.Registry.LookUpAs | src/main/java/com/s24/search/solr/ConfiguringHttpShardHandlerFactory.java:73-89 | null exactly when the name is unregistered, otherwise the registered bean, whatever class was expected |
| ConfiguringHttpShardHandlerFactory.Registry.LookUp | src/main/java/com/s24/search/solr/ConfiguringHttpShardHandlerFactory.java:63-65 | the same answer as looking up with `Object` expected |
| ConfiguringHttpShardHandlerFactory.Registry.Clear | src/main/java/com/s24/search/solr/ConfiguringHttpShardHandlerFactory.java:96-98 | the map is empty afterwards |
| ConfiguringHttpShardHandlerFactory.Registry.CreateBean | src/main/java/com/s24/search/solr/ConfiguringHttpShardHandlerFactory.java:140-165 | the property loop yields the result `CreateBeanSpec` characterises, and the caller's definition is left without its first `class` entry |
| ConfiguringHttpShardHandlerFactory.Registry.RegisterBean | src/main/java/com/s24/search/solr/ConfiguringHttpShardHandlerFactory.java:121-132 | null definition raises NullPointerException; otherwise the new map and outcome are those `RegisterSpec` characterises, and the definition is consumed as createBean consumes it |
| ConfiguringHttpShardHandlerFactory.Registry.Init | src/main/java/com/s24/search/solr/ConfiguringHttpShardHandlerFactory.java:100-113 | no `beans` entry (or null) changes nothing; a non-list `beans` fails the cast; otherwise the entries are registered in order as `InitRegistersAll` and `InitStopsAtFirstFailure` describe, and the `beans` list left in the init args is `ConsumedEntries`, which `InitConsumesDefinitions` describes |
| ConfiguringHttpShardHandlerFactory.Registry.RegisterListEntry | src/main/java/com/s24/search/solr/ConfiguringHttpShardHandlerFactory.java:105-109 | one loop iteration: the map and outcome of registering the entry, and the entry with its definition consumed |
| ConfiguringHttpShardHandlerFactory.Registry.RegisterAll | src/main/java/com/s24/search/solr/ConfiguringHttpShardHandlerFactory.java:104-110 | the loop over the list ends with the map and outcome of `InitResult` and leaves the list as `ConsumedEntries` |
| ConfiguringHttShardHandlerFactory.IgnoreErrors | src/main/java/com/s24/search/solr/ConfiguringHttShardHandlerFactory.java:125 | errors are not ignored exactly when the first `ignoreErrors` entry is the string "false" |
| ConfiguringHttShardHandlerFactory.CreateBeanSpec | src/main/java/com/s24/search/solr/ConfiguringHttShardHandlerFactory.java:143-175 | a bean is produced exactly when the class loads and every entry is settable, whatever the ignore flag; it is that class with those entries in order |
| ConfiguringHttShardHandlerFactory.FailurePolicy | src/main/java/com/s24/search/solr/ConfiguringHttShardHandlerFactory.java:152-171 | when a string (or missing) class entry cannot give a bean, the result is null when ignoring and IllegalArgumentException otherwise |
| ConfiguringHttShardHandlerFactory.RegisteredNameIsKept | src/main/java/com/s24/search/solr/ConfiguringHttShardHandlerFactory.java:128-129 | a registered name keeps its bean and completes normally whatever the new definition (computeIfAbsent) |
| ConfiguringHttShardHandlerFactory.IgnoreErrorsDecides | src/main/java/com/s24/search/solr/ConfiguringHttShardHandlerFactory.java:125-158 | for a fresh name and an unloadable class, registration leaves the map unchanged and raises exactly when `ignoreErrors` is "false" |
| ConfiguringHttShardHandlerFactory.InitKeepsRegistered | src/main/java/com/s24/search/solr/ConfiguringHttShardHandlerFactory.java:100-113 | init never removes or replaces a registered bean, whether it completes or raises |
| ConfiguringHttShardHandlerFactory.InitAddsListedNames | src/main/java/com/s24/search/solr/ConfiguringHttShardHandlerFactory.java:100-113 | every name in the map after init was there before or is a name of the list |
| ConfiguringHttShardHandlerFactory.ConsumedDefinitionIsSkipped | src/main/java/com/s24/search/solr/ConfiguringHttShardHandlerFactory.java:125-158 | the in-place removals change later registrations: a definition that created its bean once is skipped silently when registered again, even if it said `ignoreErrors` = "false" |
| ConfiguringHttShardHandlerFactory.InitConsumesDefinitions | src/main/java/com/s24/search/solr/ConfiguringHttShardHandlerFactory.java:104-129 | init keeps the list's names and order and every non-definition entry; after a completed init every definition has lost its `ignoreErrors` entry and possibly its `class` entry |
| ConfiguringHttShardHandlerFactory.InitStep | src/main/java/com/s24/search/solr/ConfiguringHttShardHandlerFactory.java:104-110 | a successfully created entry moves the loop on by one entry, with the map after it and that entry consumed |
| ConfiguringHttShardHandlerFactory.InitStop | src/main/java/com/s24/search/solr/ConfiguringHttShardHandlerFactory.java:104-110 | an exception from an entry ends init with it and leaves that entry consumed and the later ones untouched |
| ConfiguringHttShardHandlerFactory.UnfoldAt | src/main/java/com/s24/search/solr/ConfiguringHttShardHandlerFactory.java:104-110 | the outcome of init and the list it leaves, from one entry on, follow from creating that entry |
| ConfiguringHttShardHandlerFactory.Registry.constructor | src/main/java/com/s24/search/solr/ConfiguringHttShardHandlerFactory.java:51 | the bean map starts empty |
| ConfiguringHttShardHandlerFactory.Registry.LookUpAs | src/main/java/com/s24/search/solr/ConfiguringHttShardHandlerFactory.java:73-89 | null exactly when the name is unregistered, otherwise the registered bean |
| ConfiguringHttShardHandlerFactory.Registry.LookUp | src/main/java/com/s24/search/solr/ConfiguringHttShardHandlerFactory.java:63-65 | the same answer as looking up with `Object` expected |
| ConfiguringHttShardHandlerFactory.Registry.Clear | src/main/java/com/s24/search/solr/ConfiguringHttShardHandlerFactory.java:96-98 | the map is empty afterwards |
| ConfiguringHttShardHandlerFactory.Registry.InstantiateBean | src/main/java/com/s24/search/solr/ConfiguringHttShardHandlerFactory.java:143-175 | the property loop yields the result `CreateBeanSpec` and `FailurePolicy` characterise, and the caller's definition is left without its first `class` entry |
| ConfiguringHttShardHandlerFactory.Registry.CreateBean | src/main/java/com/s24/search/solr/ConfiguringHttShardHandlerFactory.java:121-134 | null definition raises NullPointerException; otherwise map and outcome are the computeIfAbsent result that `RegisteredNameIsKept` and `IgnoreErrorsDecides` characterise, and the definition is left as `ConsumedDefinition` says: `ignoreErrors` always removed, `class` too for a fresh name |
| ConfiguringHttShardHandlerFactory.Registry.Init | src/main/java/com/s24/search/solr/ConfiguringHttShardHandlerFactory.java:100-113 | no `beans` entry changes nothing; a non-list fails the cast; otherwise the entries are created in order, stopping at the first exception, and the `beans` list left in the init args is `ConsumedEntries`, which `InitConsumesDefinitions` describes |
| ConfiguringHttShardHandlerFactory.Registry.CreateListEntry | src/main/java/com/s24/search/solr/ConfiguringHttShardHandlerFactory.java:105-109 | one loop iteration: the map and outcome of creating the entry, and the entry with its definition consumed as the map stood before |
| ConfiguringHttShardHandlerFactory.Registry.CreateAll | src/main/java/com/s24/search/solr/ConfiguringHttShardHandlerFactory.java:104-110 | the loop over the list ends with the map and outcome of `InitResult` and leaves the list as `ConsumedEntries` |
| Jdbc.FixJndiName | src/main/java/com/s24/search/solr/analysis/jdbc/JndiJdbcReader.java:120-122 | the result starts with `java:comp/env/`; a name that already does is kept, any other is prefixed |
| Jdbc.FixJndiNameIdempotent | src/main/java/com/s24/search/solr/analysis/jdbc/JdbcReaderFactory.java:81-83 | normalising twice is normalising once |
| Jdbc.FirstColumn | src/main/java/com/s24/search/solr/analysis/jdbc/AbstractJdbcReader.java:50-56 | defined exactly when every row has a first column, and then it is the first column of every row, in row order |
| Jdbc.SingleLineResultSetHandler | src/main/java/com/s24/search/solr/analysis/jdbc/AbstractJdbcReader.java:50-56 | the `rs.next()` loop collects exactly `FirstColumn` of the rows |
| Jdbc.SplitJoin | src/main/java/com/s24/search/solr/analysis/jdbc/AbstractJdbcReader.java:110 | splitting the newline-joined content of one or more newline-free lines gives the lines back |
| Jdbc.JoinTwoRows | src/main/java/com/s24/search/solr/analysis/jdbc/AbstractJdbcReader.java:110 | two rows are joined with one newline and no trailing newline |
| Jdbc.JoinLength | src/main/java/com/s24/search/solr/analysis/jdbc/AbstractJdbcReader.java:110 | the joined content has the lines' characters plus one newline between consecutive lines |
| Jdbc.JoinCells | src/main/java/com/s24/search/solr/analysis/jdbc/AbstractJdbcReader.java:106-110 | the join raises NullPointerException exactly when some value is SQL NULL, otherwise it joins the values |
| Jdbc.ReadContentRows | src/main/java/com/s24/search/solr/analysis/jdbc/AbstractJdbcReader.java:95-114 | with non-null first columns the content is those values joined by newlines, and for newline-free values splitting it gives them back |
| Jdbc.ReadContentFailures | src/main/java/com/s24/search/solr/analysis/jdbc/AbstractJdbcReader.java:95-114 | a failed query raises whatever the ignore flag; a missing data source raises exactly when not ignoring, and otherwise the content is empty |
| Jdbc.RunnerFor | src/main/java/com/s24/search/solr/analysis/jdbc/AbstractJdbcReader.java:120-130 | a runner on the data source; without one, null exactly when ignoring, IllegalArgumentException otherwise |
| Jdbc.ConnectionCheck | src/main/java/com/s24/search/solr/analysis/jdbc/AbstractJdbcReader.java:75-89 | the data source survives exactly when it connects; the check raises exactly when a present data source fails to connect and errors are not ignored |
| JdbcDataSourceFactory.PropertyName | src/main/java/com/s24/search/solr/analysis/jdbc/JdbcDataSourceFactory.java:102-103 | the property name has four characters fewer than the key: the `pool` prefix is dropped |
| JdbcDataSourceFactory.NonPoolArgs | src/main/java/com/s24/search/solr/analysis/jdbc/JdbcDataSourceFactory.java:98-119 | exactly the non-pool keys of the arguments, with their values |
| JdbcDataSourceFactory.PoolPropertiesSpec | src/main/java/com/s24/search/solr/analysis/jdbc/JdbcDataSourceFactory.java:98-119 | whatever the iteration order, every pool key sets its renamed property with its own value, each property comes from a pool key, and `poolClassName` is never among them once removed |
| JdbcDataSourceFactory.PoolPropertiesAppend | src/main/java/com/s24/search/solr/analysis/jdbc/JdbcDataSourceFactory.java:108 | visiting one more pool key appends its property |
| JdbcDataSourceFactory.LoginTimeoutKey | src/test/java/com/s24/search/solr/analysis/jdbc/JdbcDataSourceFactoryTest.java:39-48 | `poolLoginTimeout` sets `loginTimeout` |
| JdbcDataSourceFactory.CreateOutcomeSpec | src/main/java/com/s24/search/solr/analysis/jdbc/JdbcDataSourceFactory.java:81-122 | a pool is created exactly when its class loads as a DataSource and every pool key is accepted; otherwise the failure raises exactly when not ignoring, always IllegalArgumentException; `poolClassName` is always consumed; a rejected property leaves its pool key consumed |
| JdbcDataSourceFactory.VisitStep | src/main/java/com/s24/search/solr/analysis/jdbc/JdbcDataSourceFactory.java:98-106 | visiting a key consumes it and appends its property exactly when it is a pool key |
| JdbcDataSourceFactory.AcceptStep | src/main/java/com/s24/search/solr/analysis/jdbc/JdbcDataSourceFactory.java:107-108 | accepting one more key extends the accepted walk |
| JdbcDataSourceFactory.RejectStep | src/main/java/com/s24/search/solr/analysis/jdbc/JdbcDataSourceFactory.java:105-117 | a rejected pool key ends the walk with it and the accepted keys before it consumed, nothing else consumed, and not every pool key settable |
| JdbcDataSourceFactory.VisitedSpec | src/main/java/com/s24/search/solr/analysis/jdbc/JdbcDataSourceFactory.java:98-119 | during the walk non-pool keys are kept; once every key is visited all pool keys are consumed, each once, and they were all accepted exactly when every pool key is settable |
| JdbcDataSourceFactory.VisitPoolKeys | src/main/java/com/s24/search/solr/analysis/jdbc/JdbcDataSourceFactory.java:98-119 | the iterator loop consumes exactly the pool keys it visits and keeps every other entry; it ends accepted exactly when every pool key is settable, then having visited every pool key once; otherwise its last visited key is the first rejected one and every earlier one was accepted; the properties are collected in visiting order |
| JdbcDataSourceFactory.Registry.constructor | src/main/java/com/s24/search/solr/analysis/jdbc/JdbcDataSourceFactory.java:43 | the pool map starts empty |
| JdbcDataSourceFactory.Registry.LookUp | src/main/java/com/s24/search/solr/analysis/jdbc/JdbcDataSourceFactory.java:55-57 | null exactly when no pool has the name, otherwise that pool |
| JdbcDataSourceFactory.Registry.SetArgs | src/main/java/com/s24/search/solr/analysis/jdbc/JdbcDataSourceFactory.java:60-73 | `dataSource` and `ignoreMissingDatabase` are consumed; a null name raises NullPointerException; a registered name keeps its pool; otherwise the pool is created as `CreateOutcomeSpec` says and registered only when created |
| JdbcDataSourceFactory.Registry.CreateDataSource | src/main/java/com/s24/search/solr/analysis/jdbc/JdbcDataSourceFactory.java:81-96 | consumes `poolClassName`; an unloadable class or non-DataSource fails per the ignore flag touching nothing else; otherwise the pool is configured, with the keys consumed as `VisitPoolKeys` states |
| JdbcDataSourceFactory.Registry.ConfigurePool | src/main/java/com/s24/search/solr/analysis/jdbc/JdbcDataSourceFactory.java:98-121 | non-pool keys are kept; if every pool key is settable all are consumed and the pool carries one property per key; otherwise the visited pool keys up to and including the first rejected one are consumed, and the failure follows the ignore flag |
| JdbcDataSourceFactory.Registry.GetUninversionType | src/main/java/com/s24/search/solr/analysis/jdbc/JdbcDataSourceFactory.java:128-131 | always raises UnsupportedOperationException |
| JdbcDataSourceFactory.Registry.Write | src/main/java/com/s24/search/solr/analysis/jdbc/JdbcDataSourceFactory.java:133-136 | always raises UnsupportedOperationException |
| JdbcDataSourceFactory.Registry.GetSortField | src/main/java/com/s24/search/solr/analysis/jdbc/JdbcDataSourceFactory.java:138-141 | always raises UnsupportedOperationException |
| AbstractJdbcReader.AbstractJdbcReader.constructor | src/main/java/com/s24/search/solr/analysis/jdbc/AbstractJdbcReader.java:67-70 | the reader holds the given data source, SQL and ignore flag |
| AbstractJdbcReader.AbstractJdbcReader.CheckDatasource | src/main/java/com/s24/search/solr/analysis/jdbc/AbstractJdbcReader.java:75-89 | the data source and outcome are those `ConnectionCheck` characterises |
| AbstractJdbcReader.AbstractJdbcReader.GetReader | src/main/java/com/s24/search/solr/analysis/jdbc/AbstractJdbcReader.java:95-114 | the content is what `ReadContentRows` and `ReadContentFailures` characterise |
| AbstractJdbcReader.AbstractJdbcReader.GetJdbcRunner | src/main/java/com/s24/search/solr/analysis/jdbc/AbstractJdbcReader.java:120-130 | the runner `RunnerFor` characterises |
| AbstractJdbcReader.AbstractJdbcReader.GetSql | src/main/java/com/s24/search/solr/analysis/jdbc/AbstractJdbcReader.java:132-135 | the SQL the reader was created with |
| JndiJdbcReader.InitDatabaseSpec | src/main/java/com/s24/search/solr/analysis/jdbc/JndiJdbcReader.java:127-159 | a new reader gets a data source exactly when the name is bound to one that connects; it raises exactly on a naming error, a wrong kind of object, or, when not ignoring, a missing name or a failed connection, always IllegalArgumentException |
| JndiJdbcReader.RewrittenArgs | src/main/java/com/s24/search/solr/analysis/jdbc/JndiJdbcReader.java:87-91 | `jndiName`, `sql`, `ignoreMissingDatabase` are gone, the original parameter names `database`, every other key keeps its value, no key is added |
| JndiJdbcReader.RewrittenArgsSteps | src/main/java/com/s24/search/solr/analysis/jdbc/JndiJdbcReader.java:87-91 | the put and the three removes in sequence yield the rewritten arguments |
| JndiJdbcReader.IgnoreFlag | src/main/java/com/s24/search/solr/analysis/jdbc/JndiJdbcReader.java:92 | errors are ignored exactly when the value is "true" |
| JndiJdbcReader.JndiJdbcReader.constructor | src/main/java/com/s24/search/solr/analysis/jdbc/JndiJdbcReader.java:106-109 | the normalised name, the SQL and the flag are stored, with no data source yet |
| JndiJdbcReader.JndiJdbcReader.Create | src/main/java/com/s24/search/solr/analysis/jdbc/JndiJdbcReader.java:106-112 | a null name or SQL raises NullPointerException; an initialisation failure is raised; otherwise a new reader with the data source `InitDatabaseSpec` describes |
| JndiJdbcReader.JndiJdbcReader.CreateFromSolrParams | src/main/java/com/s24/search/solr/analysis/jdbc/JndiJdbcReader.java:82-93 | null arguments raise; the arguments are rewritten as `RewrittenArgs` says and the reader is created from the consumed values |
| JndiJdbcReader.JndiJdbcReader.InitDatabase | src/main/java/com/s24/search/solr/analysis/jdbc/JndiJdbcReader.java:127-159 | the data source and outcome follow the JNDI binding and then the connection check |
| JndiJdbcReader.JndiJdbcReader.GetReader | src/main/java/com/s24/search/solr/analysis/jdbc/JndiJdbcReader.java:164-184 | the same content as `AbstractJdbcReader.getReader` for the same state |
| JndiJdbcReader.JndiJdbcReader.GetJdbcRunner | src/main/java/com/s24/search/solr/analysis/jdbc/JndiJdbcReader.java:189-199 | the runner `RunnerFor` characterises |
| JndiJdbcReader.JndiJdbcReader.GetSql | src/main/java/com/s24/search/solr/analysis/jdbc/JndiJdbcReader.java:201-204 | the SQL the reader was created with |
| JdbcReaderFactory.JndiDataSource | src/main/java/com/s24/search/solr/analysis/jdbc/JdbcReaderFactory.java:90-108 | a bound data source is returned, an unbound name gives null, any other naming error or wrong object raises IllegalArgumentException |
| JdbcReaderFactory.ResolveSpec | src/main/java/com/s24/search/solr/analysis/jdbc/JdbcReaderFactory.java:50-70 | a registered pool wins without consulting JNDI; otherwise the binding under the normalised name decides; naming errors always raise; a missing or unbound name raises exactly when not ignoring |
| JdbcReaderFactory.ResolveSource | src/main/java/com/s24/search/solr/analysis/jdbc/JdbcReaderFactory.java:52-57 | a resolved data source is the registered pool or the one bound in JNDI, never anything else |
| JdbcReaderFactory.RewrittenArgs | src/main/java/com/s24/search/solr/analysis/jdbc/JdbcReaderFactory.java:44-50 | `sql`, `ignoreMissingDatabase`, `dataSource` are gone, the original parameter names `database`, other keys keep their values |
| JdbcReaderFactory.RewrittenArgsSteps | src/main/java/com/s24/search/solr/analysis/jdbc/JdbcReaderFactory.java:44-50 | the put and the three removes in sequence yield the rewritten arguments |
| JdbcReaderFactory.ReaderOutcomeSpec | src/main/java/com/s24/search/solr/analysis/jdbc/JdbcReaderFactory.java:39-73 | a resolution failure is raised first, then a null SQL raises NullPointerException, then a resolved data source that cannot connect raises IllegalArgumentException unless ignoring; otherwise the reader holds the resolved data source (dropped if it cannot connect), the SQL and the `!"false"` ignore flag |
| JdbcReaderFactory.ResolveDataSource | src/main/java/com/s24/search/solr/analysis/jdbc/JdbcReaderFactory.java:52-70 | the lookup-then-JNDI code computes the resolution `ResolveSpec` characterises |
| JdbcReaderFactory.CreateFromSolrParams | src/main/java/com/s24/search/solr/analysis/jdbc/JdbcReaderFactory.java:39-73 | null arguments raise; the arguments are rewritten as `RewrittenArgs` says; the result is a new reader, or the exception, as `ReaderOutcomeSpec` characterises, the reader having run its connection check |
| JdbcResourceLoader.GetReader | src/main/java/com/s24/search/solr/analysis/jdbc/JdbcResourceLoader.java:56 | the content of whichever reader implementation is held |
| JdbcResourceLoader.OpenDatabaseRoundTrip | src/main/java/com/s24/search/solr/analysis/jdbc/JdbcResourceLoader.java:54-57 | decoding the `database` stream as UTF-8 gives exactly the reader's content |
| JdbcResourceLoader.OpenReflectsContent | src/main/java/com/s24/search/solr/analysis/jdbc/JdbcResourceLoader.java:54-57 | different contents give different `database` streams |
| JdbcResourceLoader.OtherResourcesDelegate | src/main/java/com/s24/search/solr/analysis/jdbc/JdbcResourceLoader.java:55-59 | any other name is answered by the parent alone, whatever the reader holds |
| JdbcResourceLoader.JdbcResourceLoader.constructor | src/main/java/com/s24/search/solr/analysis/jdbc/JdbcResourceLoader.java:47-51 | stores the parent and the reader |
| JdbcResourceLoader.JdbcResourceLoader.OpenResource | src/main/java/com/s24/search/solr/analysis/jdbc/JdbcResourceLoader.java:54-60 | `database` yields the reader's current content encoded as UTF-8 (or its exception); anything else the parent's stream |
| JdbcResourceLoader.JdbcResourceLoader.FindClass | src/main/java/com/s24/search/solr/analysis/jdbc/JdbcResourceLoader.java:63-65 | the parent's answer |
| JdbcResourceLoader.JdbcResourceLoader.NewInstance | src/main/java/com/s24/search/solr/analysis/jdbc/JdbcResourceLoader.java:68-70 | the parent's answer |
| SearcherAwareReloader.ChainSteps | src/main/java/com/s24/search/solr/analysis/SearcherAwareReloader.java:98-102 | one inform call per factory of the chain, in chain order |
| SearcherAwareReloader.RunAppend | src/main/java/com/s24/search/solr/analysis/SearcherAwareReloader.java:43-57 | running two call sequences in turn is running their concatenation, stopping at the first exception |
| SearcherAwareReloader.RunSpec | src/main/java/com/s24/search/solr/analysis/SearcherAwareReloader.java:74-86 | every SearcherAware object up to and including the first failing one is informed in order, nothing after it; the walk raises exactly when some SearcherAware object fails |
| SearcherAwareReloader.WalkedSteps | src/main/java/com/s24/search/solr/analysis/SearcherAwareReloader.java:51-56 | the first analyzer's factories when it is a chain, then the second's when it is a different chain |
| SearcherAwareReloader.AsWrittenIgnoresIndexAnalyzer | src/main/java/com/s24/search/solr/analysis/SearcherAwareReloader.java:49-56 | as written, a field type informs itself and then only its query chain's factories, whatever its index analyzer |
| SearcherAwareReloader.IntendedWalksBothChains | src/main/java/com/s24/search/solr/analysis/SearcherAwareReloader.java:49-56 | intended, the index chain is walked, then the query chain when it is a different object |
| SearcherAwareReloader.DifferentAnalyzersCounterexample | src/test/java/com/s24/search/solr/analysis/SearcherAwareReloaderTest.java:82-90 | with different index and query chains, as written only the query factory is informed; intended, both are, once each |
| SearcherAwareReloader.SameAnalyzerOnce | src/test/java/com/s24/search/solr/analysis/SearcherAwareReloaderTest.java:97-105 | one chain used for both analyzers is walked once, in both readings |
| SearcherAwareReloader.SharedFactoryInformedPerFieldType | src/main/java/com/s24/search/solr/analysis/SearcherAwareReloader.java:43-56 | no visited set: a factory in a chain shared by two field types is informed twice |
| SearcherAwareReloader.SearcherAwareReloader.constructor | src/main/java/com/s24/search/solr/analysis/SearcherAwareReloader.java:33-35 | nothing has been informed yet |
| SearcherAwareReloader.SearcherAwareReloader.NewSearcher | src/main/java/com/s24/search/solr/analysis/SearcherAwareReloader.java:38-60 | a null searcher raises NullPointerException; otherwise the informed objects and outcome are the as-written walk that `RunSpec` characterises |
| SearcherAwareReloader.SearcherAwareReloader.NewSearcherIntended | src/main/java/com/s24/search/solr/analysis/SearcherAwareReloader.java:38-60 | the same with the index analyzer read as the index analyzer |
| SearcherAwareReloader.SearcherAwareReloader.Walk | src/main/java/com/s24/search/solr/analysis/SearcherAwareReloader.java:43-57 | the field type loop performs exactly the walk's inform calls, stopping at the first exception |
| SearcherAwareReloader.SearcherAwareReloader.InformFieldType | src/main/java/com/s24/search/solr/analysis/SearcherAwareReloader.java:44-56 | one iteration performs the field type's own call and then its walked chains' calls |
| SearcherAwareReloader.SearcherAwareReloader.InformChain | src/main/java/com/s24/search/solr/analysis/SearcherAwareReloader.java:98-102 | every factory of the chain in order, stopping at the first exception |
| SearcherAwareReloader.SearcherAwareReloader.InformObject | src/main/java/com/s24/search/solr/analysis/SearcherAwareReloader.java:74-86 | a SearcherAware object is informed and recorded, its IOException becomes IllegalArgumentException; other objects are skipped |
| JdbcStemmerOverrideFilterFactory.ProjectArgs | src/main/java/com/s24/search/solr/analysis/jdbc/JdbcStemmerOverrideFilterFactory.java:43-52 | exactly the present `dictionary` and `ignoreCase` entries, with their values |
| JdbcStemmerOverrideFilterFactory.SuperclassArgs | src/main/java/com/s24/search/solr/analysis/jdbc/JdbcStemmerOverrideFilterFactory.java:43-52 | the loop over the two keys builds `ProjectArgs` of the arguments |
| JdbcStemmerOverrideFilterFactory.JdbcStemmerOverrideFilterFactory.constructor | src/main/java/com/s24/search/solr/analysis/jdbc/JdbcStemmerOverrideFilterFactory.java:35-38 | stores the superclass arguments and the reader |
| JdbcStemmerOverrideFilterFactory.JdbcStemmerOverrideFilterFactory.Create | src/main/java/com/s24/search/solr/analysis/jdbc/JdbcStemmerOverrideFilterFactory.java:35-38 | as written: the arguments are rewritten for `dictionary`; the reader's exception is raised, otherwise a new factory holds a new reader as `ReaderOutcomeSpec` characterises, and the superclass sees the projection of the ORIGINAL arguments |
| JdbcStemmerOverrideFilterFactory.JdbcStemmerOverrideFilterFactory.CreateIntended | src/main/java/com/s24/search/solr/analysis/jdbc/JdbcStemmerOverrideFilterFactory.java:35-38 | reader first: the same outcome and reader as `Create`, but the superclass sees the rewritten arguments, so its dictionary is `database` |
| JdbcStemmerOverrideFilterFactory.JdbcStemmerOverrideFilterFactory.Inform | src/main/java/com/s24/search/solr/analysis/jdbc/JdbcStemmerOverrideFilterFactory.java:54-57 | no dictionary loads nothing; otherwise the dictionary is opened through a JdbcResourceLoader over the parent and this reader |
| JdbcStemmerOverrideFilterFactory.ConstructorOrderCounterexample | src/main/java/com/s24/search/solr/analysis/jdbc/JdbcStemmerOverrideFilterFactory.java:36-37 | as written, a configured dictionary other than `database` is loaded from the parent whatever the reader holds, and no configured dictionary loads nothing |
| JdbcStemmerOverrideFilterFactory.IntendedLoadsDatabase | src/main/java/com/s24/search/solr/analysis/jdbc/JdbcStemmerOverrideFilterFactory.java:36-37 | reader first, the superclass dictionary is always `database`, `ignoreCase` is kept, and the loaded octets decode back to the reader's content |

## Left out

- Concurrency: the registries' ConcurrentHashMap and the atomicity of `computeIfAbsent` are not modelled; every call runs alone.
- Logging is left out: it has no effect on state or results.
- `init` hands `info` on to HttpShardHandlerFactory afterwards; that superclass is not part of this model.
- Reflection is an oracle. `Class.forName`, `newInstance`, `instanceof DataSource` and BeanUtils `setProperty` are predicates on class and property names, not loaded code. BeanUtils type conversion is not modelled: a rejected conversion is a rejected property.
- The bean name and the `beans` list are never null here. A null `ignoreErrors` entry counts as "ignore", as in the source.
- ConfiguringHttpShardHandlerFactory.Registry.Init, ConfiguringHttShardHandlerFactory.Registry.Init: the bean definitions are NamedLists that `remove` changes in place, and they stay reachable from the init args handed on to the superclass. The model returns what is left as values: `consumed` from each createBean, and `beanList` from init, the `beans` list as it stands afterwards. A NamedList shared by two entries is not modelled.
- JdbcDataSourceFactory.Registry.ConfigurePool: the source removes pool keys through the iterator of the caller's map. The model walks a local copy of the entries and writes the remaining entries back before each exit. The final map and result are the same, and no caller sees the map in between.
- JdbcDataSourceFactory.Registry.SetArgs: the schema argument is only logged and is not modelled.
- SimpleJdbcReader is not part of this model. It is taken to follow the contract AbstractJdbcReader documents for its subclasses: the constructor stores the data source, SQL and ignore flag and then runs `checkDatasource()`.
- AbstractJdbcReader.AbstractJdbcReader.constructor: `checkNotNull(sql)` is done by its caller (`JdbcReaderFactory.CreateFromSolrParams` raises NullPointerException for a null SQL at the point the constructor would).
- The JNDI context's `close()` is left out: it has no observable effect on the result. A name bound to null is not modelled: a binding is a data source, a missing name, a naming error or a wrong kind.
- The charset passed to JdbcResourceLoader is always UTF-8 (the only one the callers use), so it is not a parameter.
- JdbcStemmerOverrideFilterFactory.JdbcStemmerOverrideFilterFactory.Inform: the Lucene superclass parses the dictionary's lines into a stemmer-override map. The model stops at opening the dictionary resource: it yields the octets the superclass reads, not the parsed map, and it opens a single dictionary name, not a comma-separated list.
- The other filter factories (synonyms, stop words, keep words, auto-phrasing, the auto-phrasing query parser) and DataImportJdbcDataSource are outside the modelled core.
- JdbcDataSourceFactory.PropertyName: states only the length of the name. The name itself is pinned by `LoginTimeoutKey` for the test's key and by `Java.UncapitalizeSpec` character by character.
- Java.ToLower: models `Character.toLowerCase` on the ASCII letters only; other letters are returned unchanged, and so `Java.Uncapitalize` lower-cases ASCII word starts only.
- Strings are sequences of Unicode scalar values. A Java string is UTF-16 and may hold an unpaired surrogate, which commons-io `ReaderInputStream` replaces when it encodes; such content is not modelled, so `JdbcResourceLoader.OpenDatabaseRoundTrip` holds only for content without unpaired surrogates.
- Readers hand their content over as a whole string rather than as a java.io.Reader stream.

## Findings

| source | as written | input that shows it | evidently intended | confidence | as-written member | corrected member |
|---|---|---|---|---|---|---|
| src/main/java/com/s24/search/solr/analysis/SearcherAwareReloader.java:49 | `indexAnalyzer` is read with `getQueryAnalyzer()`, so the index chain is never walked | a field type whose index chain holds SearcherAware factory 2 and whose query chain holds SearcherAware factory 4 (the different-analyzers test): only 4 is informed | read it with `getIndexAnalyzer()`, which informs 2 and then 4, once each | high, not executed | SearcherAwareReloader.SearcherAwareReloader.NewSearcher, SearcherAwareReloader.DifferentAnalyzersCounterexample | SearcherAwareReloader.SearcherAwareReloader.NewSearcherIntended, SearcherAwareReloader.IntendedWalksBothChains |
| src/main/java/com/s24/search/solr/analysis/jdbc/JdbcStemmerOverrideFilterFactory.java:36-37 | the superclass arguments are projected before `createFromSolrParams` sets `dictionary` to `database`, so the superclass never loads the database | arguments `{dictionary: "overrides.txt", dataSource: "db", sql: "..."}`: the superclass loads `overrides.txt` from the parent loader; with no `dictionary` it loads nothing | create the reader first, as the other database-backed filter factories do, so the superclass loads `database` | medium, not executed | JdbcStemmerOverrideFilterFactory.JdbcStemmerOverrideFilterFactory.Create, JdbcStemmerOverrideFilterFactory.ConstructorOrderCounterexample | JdbcStemmerOverrideFilterFactory.JdbcStemmerOverrideFilterFactory.CreateIntended, JdbcStemmerOverrideFilterFactory.IntendedLoadsDatabase |
