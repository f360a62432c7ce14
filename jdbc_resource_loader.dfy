/** JdbcResourceLoader: the resource loader a database-backed filter
    factory hands to its Lucene superclass. The resource named exactly
    `database` is the content of the factory's reader, encoded as UTF-8;
    every other request goes to the parent loader. */
module JdbcResourceLoader {
  import opened Java
  import opened Jdbc
  import opened Utf8
  import R = AbstractJdbcReader
  import J = JndiJdbcReader

  /** `DATABASE`: the name of the database resource. */
  const DatabaseResource: string := "database"

  /** The parent ResourceLoader, as an oracle: the stream a resource name
      opens (or the IOException), and the class `findClass` and the
      instance `newInstance` yield for a class name and expected type. */
  datatype ResourceLoader = ResourceLoader(
    open: string -> Outcome<seq<byte>>,
    findClass: (string, string) -> Outcome<string>,
    newInstance: (string, string) -> Outcome<string>)

  /** A JdbcReader: one of the two implementations. */
  datatype JdbcReader = Simple(simple: R.AbstractJdbcReader) | Jndi(jndi: J.JndiJdbcReader)

  /** What `getReader()` yields for the reader in its current state. */
  function Content(reader: JdbcReader, db: Database): Outcome<string>
    reads if reader.Simple? then reader.simple else reader.jndi
  {
    match reader
    case Simple(r) => ReadContent(r.dataSource, r.ignore, r.sql, db)
    case Jndi(r) => ReadContent(r.dataSource, r.ignore, r.sql, db)
  }

  /** `reader.getReader()`, dispatched to the implementation. */
  method GetReader(reader: JdbcReader, db: Database) returns (content: Outcome<string>)
    ensures content == Content(reader, db)
  {
    match reader {
      case Simple(r) => content := r.GetReader(db);
      case Jndi(r) => content := r.GetReader(db);
    }
  }

  /** What `openResource(resource)` yields when the reader's content is
      `content`: for `database`, the UTF-8 octets of the content (or the
      reader's exception); for any other name, the parent's answer. */
  function OpenResult(parent: ResourceLoader, content: Outcome<string>, resource: string): Outcome<seq<byte>> {
    if resource == DatabaseResource then
      match content
      case Thrown(e) => Thrown(e)
      case Normal(s) => Normal(Encode(s))
    else parent.open(resource)
  }

  /** Reading the `database` resource back as UTF-8 gives exactly the
      reader's content. */
  lemma OpenDatabaseRoundTrip(parent: ResourceLoader, content: string)
    ensures OpenResult(parent, Normal(content), DatabaseResource).Normal?
    ensures Decode(OpenResult(parent, Normal(content), DatabaseResource).value) == Some(content)
  {
    DecodeEncode(content);
  }

  /** Nothing is cached: the octets of the `database` resource determine
      the content they were made from, so two opens over different content
      give different streams. */
  lemma OpenReflectsContent(parent: ResourceLoader, content1: string, content2: string)
    requires content1 != content2
    ensures OpenResult(parent, Normal(content1), DatabaseResource) != OpenResult(parent, Normal(content2), DatabaseResource)
  {
    if Encode(content1) == Encode(content2) {
      EncodeInjective(content1, content2);
    }
  }

  /** Any other name is answered by the parent alone, whatever the reader
      holds; the match on `database` is exact and case-sensitive. */
  lemma OtherResourcesDelegate(parent: ResourceLoader, content1: Outcome<string>, content2: Outcome<string>, resource: string)
    requires resource != DatabaseResource
    ensures OpenResult(parent, content1, resource) == OpenResult(parent, content2, resource) == parent.open(resource)
  {
  }

  class JdbcResourceLoader {
    const parent: ResourceLoader
    const reader: JdbcReader

    /** `JdbcResourceLoader(parent, reader, charset)`: the three arguments
        are non-null by type; the charset is always UTF-8. */
    constructor (parent: ResourceLoader, reader: JdbcReader)
      ensures this.parent == parent && this.reader == reader
    {
      this.parent := parent;
      this.reader := reader;
    }

    /** `openResource(resource)`: asks the reader afresh on every open of
        `database`. */
    method OpenResource(resource: string, db: Database) returns (stream: Outcome<seq<byte>>)
      ensures stream == OpenResult(parent, Content(reader, db), resource)
    {
      if resource == DatabaseResource {
        var content := GetReader(reader, db);
        if content.Thrown? {
          return Thrown(content.exception);
        }
        return Normal(Encode(content.value));
      }
      stream := parent.open(resource);
    }

    /** `findClass(cname, expectedType)`: the parent's answer. */
    method FindClass(cname: string, expectedType: string) returns (cls: Outcome<string>)
      ensures cls == parent.findClass(cname, expectedType)
    {
      cls := parent.findClass(cname, expectedType);
    }

    /** `newInstance(cname, expectedType)`: the parent's answer. */
    method NewInstance(cname: string, expectedType: string) returns (instance: Outcome<string>)
      ensures instance == parent.newInstance(cname, expectedType)
    {
      instance := parent.newInstance(cname, expectedType);
    }
  }
}
