/** JdbcDataSourceFactory: a dummy Solr field type whose only job is to
    create a named connection pool once, from the `pool`-prefixed arguments
    of its schema definition. The static `dataSources` map is the
    `dataSources` field of the one `Registry` object. */
module JdbcDataSourceFactory {
  import opened Java
  import opened Beans
  import opened Jdbc

  const Pool: string := "pool"

  /** A key that configures the pool. */
  predicate IsPoolKey(key: string) {
    StartsWith(key, Pool)
  }

  /** The property a pool key sets: the key without `pool`, with the first
      letter of each word lower-cased (`poolLoginTimeout` sets `loginTimeout`). */
  function PropertyName(key: string): (name: string)
    requires IsPoolKey(key)
    ensures |name| == |key| - |Pool|
  {
    Uncapitalize(key[|Pool|..])
  }

  /** The pool class loads, instantiates and is a DataSource. A missing
      class name fails `Class.forName` like an unknown one. */
  predicate Loadable(r: Reflection, poolClassName: Option<string>) {
    poolClassName.Some? && r.instantiable(poolClassName.value) && r.isDataSource(poolClassName.value)
  }

  /** Every pool key of the arguments sets a property the pool class accepts. */
  predicate AllPoolKeysSettable(r: Reflection, poolClass: string, args: map<string, string>) {
    forall key :: key in args && IsPoolKey(key) ==> r.settable(poolClass, PropertyName(key), Str(args[key]))
  }

  /** The arguments that are not pool keys: what is left once every pool
      key has been consumed. */
  function NonPoolArgs(args: map<string, string>): (rest: map<string, string>)
    ensures forall key :: key in rest <==> key in args && !IsPoolKey(key)
    ensures forall key :: key in rest ==> rest[key] == args[key]
  {
    map key | key in args && !IsPoolKey(key) :: args[key]
  }

  /** `order` lists every pool key of the arguments exactly once: one of
      the orders in which a HashMap iteration may visit them. */
  predicate IsPoolOrder(args: map<string, string>, order: seq<string>) {
    && (forall i :: 0 <= i < |order| ==> order[i] in args && IsPoolKey(order[i]))
    && (forall i, j :: 0 <= i < j < |order| ==> order[i] != order[j])
    && (forall key :: key in args && IsPoolKey(key) ==> key in order)
  }

  /** The properties set on the pool when its keys are visited in `order`. */
  function PoolProperties(args: map<string, string>, order: seq<string>): (props: seq<(string, string)>)
    requires forall i :: 0 <= i < |order| ==> order[i] in args && IsPoolKey(order[i])
    ensures |props| == |order|
  {
    seq(|order|, i requires 0 <= i < |order| && order[i] in args && IsPoolKey(order[i]) =>
      (PropertyName(order[i]), args[order[i]]))
  }

  /** Whatever the iteration order, each pool key sets its renamed property
      with its own value, every property comes from a pool key, and
      `poolClassName` is never among them once it has been removed. */
  lemma PoolPropertiesSpec(args: map<string, string>, order: seq<string>)
    requires IsPoolOrder(args, order)
    ensures forall key :: key in args && IsPoolKey(key) ==>
              exists i :: 0 <= i < |order| && PoolProperties(args, order)[i] == (PropertyName(key), args[key])
    ensures forall i :: 0 <= i < |order| ==>
              order[i] in args && IsPoolKey(order[i])
              && PoolProperties(args, order)[i] == (PropertyName(order[i]), args[order[i]])
    ensures "poolClassName" !in args ==> "poolClassName" !in order
  {
    forall key | key in args && IsPoolKey(key)
      ensures exists i :: 0 <= i < |order| && PoolProperties(args, order)[i] == (PropertyName(key), args[key])
    {
      var i :| 0 <= i < |order| && order[i] == key;
      assert PoolProperties(args, order)[i] == (PropertyName(key), args[key]);
    }
  }

  /** Visiting one more pool key appends its property. */
  lemma PoolPropertiesAppend(args: map<string, string>, order: seq<string>, key: string)
    requires forall i :: 0 <= i < |order| ==> order[i] in args && IsPoolKey(order[i])
    requires key in args && IsPoolKey(key)
    ensures PoolProperties(args, order + [key]) == PoolProperties(args, order) + [(PropertyName(key), args[key])]
  {
  }

  /** The renaming the test configuration relies on. */
  lemma LoginTimeoutKey()
    ensures PropertyName("poolLoginTimeout") == "loginTimeout"
  {
    assert "poolLoginTimeout"[|Pool|..] == "LoginTimeout";
  }

  /** How `createDataSource(args, ignore)` may end, with `before` the
      arguments it was handed, `after` the arguments it leaves and `order`
      the pool keys it visited:
      - the `poolClassName` entry is always consumed;
      - a class that cannot be loaded returns null when ignoring and raises
        IllegalArgumentException otherwise, touching nothing else;
      - a pool whose every pool key is accepted is returned with one
        property per pool key, and all pool keys are consumed;
      - otherwise the walk ends at the first rejected property, having
        consumed it and every pool key visited before it (all accepted),
        and returns null when ignoring and raises otherwise;
      - in every case keys that are not pool keys stay as they were. */
  predicate CreateOutcome(r: Reflection, before: map<string, string>, ignore: bool,
                          result: Outcome<Option<DataSource>>, after: map<string, string>, order: seq<string>)
  {
    var poolClassName := Get(before, "poolClassName");
    var args := before - {"poolClassName"};
    && KeepsNonPoolKeys(args, after)
    && (!Loadable(r, poolClassName) ==> after == args && result == LoadFailure(ignore))
    && (Loadable(r, poolClassName) && AllPoolKeysSettable(r, poolClassName.value, args) ==>
          && after == NonPoolArgs(args)
          && IsPoolOrder(args, order)
          && result == Normal(Some(DataSource(poolClassName.value, PoolProperties(args, order)))))
    && (Loadable(r, poolClassName) && !AllPoolKeysSettable(r, poolClassName.value, args) ==>
          && ConsumedExactly(args, after, order)
          && RejectedLast(r, poolClassName.value, args, order)
          && result == ConfigureFailure(ignore))
  }

  /** `after` is `args` without the keys of `order` and with every other
      entry as it was. */
  predicate ConsumedExactly(args: map<string, string>, after: map<string, string>, order: seq<string>) {
    && (forall key :: key in after ==> key in args && key !in order && after[key] == args[key])
    && (forall key :: key in args && key !in order ==> key in after)
  }

  /** `order` is a walk over distinct pool keys of `args` whose every key
      but the last was accepted by the pool class and whose last key was
      rejected. */
  predicate RejectedLast(r: Reflection, poolClass: string, args: map<string, string>, order: seq<string>) {
    && |order| > 0
    && (forall i :: 0 <= i < |order| ==> order[i] in args && IsPoolKey(order[i]))
    && (forall i, j :: 0 <= i < j < |order| ==> order[i] != order[j])
    && (forall i :: 0 <= i < |order| - 1 ==> r.settable(poolClass, PropertyName(order[i]), Str(args[order[i]])))
    && !r.settable(poolClass, PropertyName(order[|order| - 1]), Str(args[order[|order| - 1]]))
  }

  /** `after` is `args` with some pool keys consumed and nothing else
      changed. */
  predicate KeepsNonPoolKeys(args: map<string, string>, after: map<string, string>) {
    && after.Keys <= args.Keys
    && (forall key :: key in after ==> after[key] == args[key])
    && (forall key :: key in args && !IsPoolKey(key) ==> key in after)
  }

  function LoadFailure(ignore: bool): Outcome<Option<DataSource>> {
    if ignore then Normal(None) else Thrown(IllegalArgument("Failed to instantiate database connection pool."))
  }

  function ConfigureFailure(ignore: bool): Outcome<Option<DataSource>> {
    if ignore then Normal(None) else Thrown(IllegalArgument("Failed to configure database connection pool."))
  }

  /** A pool is created exactly when its class loads and every pool key is
      accepted; when it is not, the failure raises exactly when errors are
      not ignored. */
  lemma CreateOutcomeSpec(r: Reflection, before: map<string, string>, ignore: bool,
                          result: Outcome<Option<DataSource>>, after: map<string, string>, order: seq<string>)
    requires CreateOutcome(r, before, ignore, result, after, order)
    ensures result.Normal? && result.value.Some? <==>
              Loadable(r, Get(before, "poolClassName"))
              && AllPoolKeysSettable(r, Get(before, "poolClassName").value, before - {"poolClassName"})
    ensures !(result.Normal? && result.value.Some?) ==> (result.Thrown? <==> !ignore)
    ensures result.Thrown? ==> result.exception.IllegalArgument?
    ensures "poolClassName" !in after
    ensures Loadable(r, Get(before, "poolClassName"))
            && !AllPoolKeysSettable(r, Get(before, "poolClassName").value, before - {"poolClassName"}) ==>
              exists key :: && key in before && IsPoolKey(key) && key !in after
                            && !r.settable(Get(before, "poolClassName").value, PropertyName(key), Str(before[key]))
  {
    var poolClassName := Get(before, "poolClassName");
    var args := before - {"poolClassName"};
    if Loadable(r, poolClassName) && !AllPoolKeysSettable(r, poolClassName.value, args) {
      var key := order[|order| - 1];
      assert key in args && key !in after;
    }
  }

  /** The walk over `args` has visited every key outside `unvisited`:
      `order` lists the pool keys visited, each once, `remaining` is `args`
      without them, and `properties` holds their properties. */
  ghost predicate Walked(args: map<string, string>, unvisited: set<string>,
                         remaining: map<string, string>, order: seq<string>, properties: seq<(string, string)>)
  {
    && Visited(args, unvisited, remaining, order)
    && properties == PoolProperties(args, order)
  }

  /** Every pool key visited so far was accepted by the pool class. */
  ghost predicate Accepted(r: Reflection, poolClass: string, args: map<string, string>, order: seq<string>)
    requires forall i :: 0 <= i < |order| ==> order[i] in args && IsPoolKey(order[i])
  {
    forall i :: 0 <= i < |order| ==> r.settable(poolClass, PropertyName(order[i]), Str(args[order[i]]))
  }

  /** `order` lists the pool keys visited, each once, and `remaining` is
      `args` without them. */
  ghost predicate Visited(args: map<string, string>, unvisited: set<string>,
                          remaining: map<string, string>, order: seq<string>)
  {
    && unvisited <= args.Keys
    && (forall key :: key in args && IsPoolKey(key) && key !in unvisited ==> key in order)
    && (forall key :: key in remaining <==> key in args && key !in order)
    && (forall key :: key in remaining ==> remaining[key] == args[key])
    && (forall i :: 0 <= i < |order| ==> order[i] in args && IsPoolKey(order[i]) && order[i] !in unvisited)
    && (forall i, j :: 0 <= i < j < |order| ==> order[i] != order[j])
  }

  /** Visiting one more key consumes it and appends its property exactly
      when it is a pool key. */
  lemma VisitStep(args: map<string, string>, unvisited: set<string>,
                  remaining: map<string, string>, order: seq<string>, properties: seq<(string, string)>, key: string)
    requires Walked(args, unvisited, remaining, order, properties) && key in unvisited
    ensures IsPoolKey(key) ==>
              && key in remaining && remaining[key] == args[key]
              && Walked(args, unvisited - {key}, remaining - {key}, order + [key],
                        properties + [(PropertyName(key), remaining[key])])
    ensures !IsPoolKey(key) ==> Walked(args, unvisited - {key}, remaining, order, properties)
  {
    if IsPoolKey(key) {
      var order' := order + [key];
      assert forall i :: 0 <= i < |order| ==> order'[i] == order[i];
      PoolPropertiesAppend(args, order, key);
    }
  }

  /** A walk that accepted every key visited so far and then accepts `key`
      has accepted every key of the longer walk. */
  lemma AcceptStep(r: Reflection, poolClass: string, args: map<string, string>, order: seq<string>, key: string)
    requires forall i :: 0 <= i < |order| ==> order[i] in args && IsPoolKey(order[i])
    requires key in args && IsPoolKey(key)
    requires Accepted(r, poolClass, args, order)
    requires r.settable(poolClass, PropertyName(key), Str(args[key]))
    ensures Accepted(r, poolClass, args, order + [key])
  {
    var order' := order + [key];
    assert forall i :: 0 <= i < |order| ==> order'[i] == order[i];
  }

  /** A walk that accepted every key visited so far and then rejects the
      pool key `key` ends rejected at that key, having consumed it and the
      keys visited before it and nothing else. */
  lemma RejectStep(r: Reflection, poolClass: string, args: map<string, string>, unvisited: set<string>,
                   remaining: map<string, string>, order: seq<string>, properties: seq<(string, string)>, key: string)
    requires Walked(args, unvisited, remaining, order, properties)
    requires key in unvisited && IsPoolKey(key)
    requires Accepted(r, poolClass, args, order)
    requires !r.settable(poolClass, PropertyName(key), Str(args[key]))
    ensures key in remaining
    ensures var order' := order + [key];
            && KeepsNonPoolKeys(args, remaining - {key})
            && ConsumedExactly(args, remaining - {key}, order')
            && RejectedLast(r, poolClass, args, order')
            && !AllPoolKeysSettable(r, poolClass, args)
            && (forall i :: 0 <= i < |order'| ==> order'[i] in args && IsPoolKey(order'[i]))
            && properties + [(PropertyName(key), remaining[key])] == PoolProperties(args, order')
  {
    VisitStep(args, unvisited, remaining, order, properties, key);
    var order' := order + [key];
    assert forall i :: 0 <= i < |order| ==> order'[i] == order[i];
    VisitedSpec(r, poolClass, args, unvisited - {key}, remaining - {key}, order');
  }

  /** At every point of the walk the keys that are not pool keys are kept;
      once every key is visited the pool keys are all consumed, and they
      were all accepted exactly when every pool key is settable. */
  lemma VisitedSpec(r: Reflection, poolClass: string, args: map<string, string>, unvisited: set<string>,
                    remaining: map<string, string>, order: seq<string>)
    requires Visited(args, unvisited, remaining, order)
    ensures KeepsNonPoolKeys(args, remaining)
    ensures forall i :: 0 <= i < |order| ==> order[i] in args && IsPoolKey(order[i])
    ensures ConsumedExactly(args, remaining, order)
    ensures unvisited == {} ==> remaining == NonPoolArgs(args) && IsPoolOrder(args, order)
    ensures unvisited == {} && Accepted(r, poolClass, args, order) ==> AllPoolKeysSettable(r, poolClass, args)
  {
    if unvisited == {} && Accepted(r, poolClass, args, order) {
      forall key | key in args && IsPoolKey(key) ensures r.settable(poolClass, PropertyName(key), Str(args[key])) {
        var i :| 0 <= i < |order| && order[i] == key;
      }
    }
  }

  /** The iteration of `createDataSource` over the arguments: visits them
      in HashMap order (any order; `order` records the pool keys visited),
      removes each pool key (`iter.remove()`) and collects its property;
      the first property the pool rejects ends the walk with `accepted`
      false. */
  method VisitPoolKeys(r: Reflection, args: map<string, string>, poolClass: string)
    returns (remaining: map<string, string>, order: seq<string>, properties: seq<(string, string)>, accepted: bool)
    ensures KeepsNonPoolKeys(args, remaining)
    ensures accepted <==> AllPoolKeysSettable(r, poolClass, args)
    ensures accepted ==> remaining == NonPoolArgs(args) && IsPoolOrder(args, order)
    ensures ConsumedExactly(args, remaining, order)
    ensures !accepted ==> RejectedLast(r, poolClass, args, order)
    ensures forall i :: 0 <= i < |order| ==> order[i] in args && IsPoolKey(order[i])
    ensures properties == PoolProperties(args, order)
  {
    remaining := args;
    order := [];
    properties := [];
    var unvisited := args.Keys;
    while unvisited != {}
      invariant Walked(args, unvisited, remaining, order, properties)
      invariant Accepted(r, poolClass, args, order)
      decreases |unvisited|
    {
      var key :| key in unvisited;
      VisitStep(args, unvisited, remaining, order, properties, key);
      if IsPoolKey(key) {
        var propertyName := PropertyName(key);
        var propertyValue := remaining[key];
        if !r.settable(poolClass, propertyName, Str(propertyValue)) {
          RejectStep(r, poolClass, args, unvisited, remaining, order, properties, key);
          return remaining - {key}, order + [key], properties + [(propertyName, propertyValue)], false;
        }
        AcceptStep(r, poolClass, args, order, key);
        remaining := remaining - {key};
        order := order + [key];
        properties := properties + [(propertyName, propertyValue)];
      }
      unvisited := unvisited - {key};
    }
    VisitedSpec(r, poolClass, args, unvisited, remaining, order);
    accepted := true;
  }

  /** The process-wide pool map of JdbcDataSourceFactory. */
  class Registry {
    var dataSources: map<string, DataSource>

    constructor ()
      ensures dataSources == map[]
    {
      dataSources := map[];
    }

    /** `lookUp(name)`: the pool registered under the name, or null. */
    method LookUp(name: string) returns (dataSource: Option<DataSource>)
      ensures dataSource.None? <==> name !in dataSources
      ensures dataSource.Some? ==> dataSource.value == dataSources[name]
    {
      dataSource := Get(dataSources, name);
    }

    /** `setArgs(schema, args)`: consumes `dataSource` and
        `ignoreMissingDatabase`, then creates the pool unless one is already
        registered under that name (computeIfAbsent). A null name fails with
        NullPointerException; a pool that is not created registers nothing. */
    method SetArgs(r: Reflection, args: ArgMap)
      returns (result: Outcome<()>, ghost created: Outcome<Option<DataSource>>, ghost order: seq<string>)
      modifies this, args
      ensures var name := Get(old(args.entries), "dataSource");
              var ignore := Get(old(args.entries), "ignoreMissingDatabase") != Some("false");
              var rest := old(args.entries) - {"dataSource", "ignoreMissingDatabase"};
              && (name.None? ==>
                    result == Thrown(NullPointer) && dataSources == old(dataSources) && args.entries == rest)
              && (name.Some? && name.value in old(dataSources) ==>
                    result == Normal(()) && dataSources == old(dataSources) && args.entries == rest)
              && (name.Some? && name.value !in old(dataSources) ==>
                    && CreateOutcome(r, rest, ignore, created, args.entries, order)
                    && (created.Thrown? ==> result == Thrown(created.exception) && dataSources == old(dataSources))
                    && (created == Normal(None) ==> result == Normal(()) && dataSources == old(dataSources))
                    && (created.Normal? && created.value.Some? ==>
                          result == Normal(()) && dataSources == old(dataSources)[name.value := created.value.value]))
    {
      var name := args.Remove("dataSource");
      var ignoreString := args.Remove("ignoreMissingDatabase");
      var ignore := ignoreString != Some("false");
      order := [];
      created := Normal(None);
      if name.None? {
        return Thrown(NullPointer), created, order;
      }
      if name.value in dataSources {
        return Normal(()), created, order;
      }
      assert args.entries == old(args.entries) - {"dataSource", "ignoreMissingDatabase"};
      var dataSource;
      dataSource, order := CreateDataSource(r, args, ignore);
      created := dataSource;
      if dataSource.Thrown? {
        return Thrown(dataSource.exception), created, order;
      }
      if dataSource.value.Some? {
        dataSources := dataSources[name.value := dataSource.value.value];
      }
      result := Normal(());
    }

    /** `createDataSource(args, ignore)`: consumes `poolClassName`,
        instantiates that class, then sets the pool properties. */
    method CreateDataSource(r: Reflection, args: ArgMap, ignore: bool)
      returns (result: Outcome<Option<DataSource>>, ghost order: seq<string>)
      modifies args
      ensures CreateOutcome(r, old(args.entries), ignore, result, args.entries, order)
    {
      var poolClassName := args.Remove("poolClassName");
      order := [];
      if !(poolClassName.Some? && r.instantiable(poolClassName.value) && r.isDataSource(poolClassName.value)) {
        if ignore {
          return Normal(None), order;
        }
        return Thrown(IllegalArgument("Failed to instantiate database connection pool.")), order;
      }
      result, order := ConfigurePool(r, args, poolClassName.value, ignore);
    }

    /** The property loop of `createDataSource`: consumes the pool keys
        from the arguments and sets their properties on the pool; a
        rejected property ends it. */
    method ConfigurePool(r: Reflection, args: ArgMap, poolClass: string, ignore: bool)
      returns (result: Outcome<Option<DataSource>>, ghost order: seq<string>)
      modifies args
      ensures KeepsNonPoolKeys(old(args.entries), args.entries)
      ensures AllPoolKeysSettable(r, poolClass, old(args.entries)) ==>
                && args.entries == NonPoolArgs(old(args.entries))
                && IsPoolOrder(old(args.entries), order)
                && result == Normal(Some(DataSource(poolClass, PoolProperties(old(args.entries), order))))
      ensures !AllPoolKeysSettable(r, poolClass, old(args.entries)) ==>
                && ConsumedExactly(old(args.entries), args.entries, order)
                && RejectedLast(r, poolClass, old(args.entries), order)
                && result == ConfigureFailure(ignore)
    {
      var remaining, visited, properties, accepted := VisitPoolKeys(r, args.entries, poolClass);
      order := visited;
      args.entries := remaining;
      if !accepted {
        if ignore {
          return Normal(None), order;
        }
        return Thrown(IllegalArgument("Failed to configure database connection pool.")), order;
      }
      result := Normal(Some(DataSource(poolClass, properties)));
    }
    /** `getUninversionType(sf)`: this field type only defines a data source. */
    method GetUninversionType() returns (result: Outcome<()>)
      ensures result.Thrown? && result.exception.UnsupportedOperation?
    {
      result := Thrown(UnsupportedOperation("JdbcDataSourceFactory just defines a data source"));
    }

    /** `write(writer, name, f)`: this field type only defines a data source. */
    method Write() returns (result: Outcome<()>)
      ensures result.Thrown? && result.exception.UnsupportedOperation?
    {
      result := Thrown(UnsupportedOperation("JdbcDataSourceFactory just defines a data source"));
    }

    /** `getSortField(field, top)`: this field type only defines a data source. */
    method GetSortField() returns (result: Outcome<()>)
      ensures result.Thrown? && result.exception.UnsupportedOperation?
    {
      result := Thrown(UnsupportedOperation("JdbcDataSourceFactory just defines a data source"));
    }
  }
}
