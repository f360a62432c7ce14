/** ConfiguringHttpShardHandlerFactory: the strict bean registry. Every
    failure raises; a bean name defined twice is first overwritten in the
    map and then reported with IllegalStateException. The static `beans`
    map of the Java class is the `beans` field of the one `Registry` object. */
module ConfiguringHttpShardHandlerFactory {
  import opened Java
  import opened Beans

  /** What `createBean` returns or raises for a definition (the strict
      variant has no ignore policy). */
  function CreateBeanResult(r: Reflection, def: Definition): Outcome<Bean> {
    var (classEntry, props) := RemoveFirst(def, "class");
    match Instantiate(r, classEntry)
    case NotAString => Thrown(ClassCast)
    case NotInstantiable => Thrown(IllegalArgument("Failed to instantiate bean."))
    case Instantiated(bean) =>
      match Configure(r, bean, props)
      case None => Thrown(IllegalArgument("Failed to configure bean."))
      case Some(configured) => Normal(configured)
  }

  /** What `registerBean` does to the map, and how it completes. A null
      definition fails `checkNotNull`. A successfully created bean is put
      into the map BEFORE the duplicate check, so a duplicate replaces the
      old bean and then raises. */
  function RegisterResult(r: Reflection, beans: map<string, Bean>, name: string, def: Option<Definition>)
    : (map<string, Bean>, Outcome<()>)
  {
    match def
    case None => (beans, Thrown(NullPointer))
    case Some(d) =>
      match CreateBeanResult(r, d)
      case Thrown(e) => (beans, Thrown(e))
      case Normal(bean) =>
        (beans[name := bean],
         if name in beans then Thrown(IllegalState(name + " has been defined twice.")) else Normal(()))
  }

  /** What `init` does with the entries of the `beans` list, one after the
      other; the first exception ends the loop and propagates. */
  function InitResult(r: Reflection, beans: map<string, Bean>, entries: seq<(string, Value)>)
    : (map<string, Bean>, Outcome<()>)
    decreases |entries|
  {
    if entries == [] then (beans, Normal(()))
    else
      var step := RegisterEntry(r, beans, entries[0]);
      if step.1.Thrown? then step else InitResult(r, step.0, entries[1..])
  }

  /** One loop iteration of `init`: the `(NamedList<?>)` cast of the entry's
      value, then `registerBean`. */
  function RegisterEntry(r: Reflection, beans: map<string, Bean>, entry: (string, Value))
    : (map<string, Bean>, Outcome<()>)
  {
    match entry.1
    case Null => RegisterResult(r, beans, entry.0, None)
    case List(d) => RegisterResult(r, beans, entry.0, Some(d))
    case _ => (beans, Thrown(ClassCast))
  }

  /** What `createBean` leaves of the caller's definition: `remove("class")`
      takes its first `class` entry out of the NamedList in place, before
      anything can fail. */
  function ConsumedDefinition(def: Definition): Definition {
    RemoveFirst(def, "class").1
  }

  /** The `beans` list as `init` leaves it behind in the plugin's init args:
      every entry the loop reached whose value is a definition has lost its
      first `class` entry, whether or not its bean was created; the entries
      after the first failure are untouched. */
  function ConsumedEntries(r: Reflection, beans: map<string, Bean>, entries: seq<(string, Value)>)
    : seq<(string, Value)>
    decreases |entries|
  {
    if entries == [] then []
    else
      var step := RegisterEntry(r, beans, entries[0]);
      if step.1.Thrown? then [ConsumedEntry(entries[0])] + entries[1..]
      else [ConsumedEntry(entries[0])] + ConsumedEntries(r, step.0, entries[1..])
  }

  /** One entry of the `beans` list after the loop reached it. */
  function ConsumedEntry(entry: (string, Value)): (string, Value) {
    if entry.1.List? then (entry.0, List(ConsumedDefinition(entry.1.entries))) else entry
  }

  /** The loop of `init` has handled the first `i` entries of the list:
      the map is now `beans`, the handled entries read `consumed`, and the
      rest of the loop ends init with `total` and leaves the list as
      `list`. */
  ghost predicate InitProgress(r: Reflection, total: (map<string, Bean>, Outcome<()>), list: seq<(string, Value)>,
                               entries: seq<(string, Value)>, i: nat,
                               beans: map<string, Bean>, consumed: seq<(string, Value)>)
  {
    && i <= |entries|
    && total == InitResult(r, beans, entries[i..])
    && list == consumed + ConsumedEntries(r, beans, entries[i..])
  }

  /** Registering entry `i` successfully moves the loop of `init` on by one
      (`UnfoldAt` gives the two steps it needs). */
  lemma InitStep(r: Reflection, total: (map<string, Bean>, Outcome<()>), list: seq<(string, Value)>,
                 entries: seq<(string, Value)>, i: nat,
                 beans: map<string, Bean>, consumed: seq<(string, Value)>, after: map<string, Bean>)
    requires InitProgress(r, total, list, entries, i, beans, consumed) && i < |entries|
    requires InitResult(r, beans, entries[i..]) == InitResult(r, after, entries[i + 1..])
    requires ConsumedEntries(r, beans, entries[i..]) == [ConsumedEntry(entries[i])] + ConsumedEntries(r, after, entries[i + 1..])
    ensures InitProgress(r, total, list, entries, i + 1, after, consumed + [ConsumedEntry(entries[i])])
  {
    var head := ConsumedEntry(entries[i]);
    assert consumed + ([head] + ConsumedEntries(r, after, entries[i + 1..]))
           == consumed + [head] + ConsumedEntries(r, after, entries[i + 1..]);
  }

  /** An exception from entry `i` ends init with that exception and leaves
      the list with entry `i` consumed and the later entries untouched. */
  lemma InitStop(r: Reflection, total: (map<string, Bean>, Outcome<()>), list: seq<(string, Value)>,
                 entries: seq<(string, Value)>, i: nat,
                 beans: map<string, Bean>, consumed: seq<(string, Value)>,
                 after: map<string, Bean>, result: Outcome<()>)
    requires InitProgress(r, total, list, entries, i, beans, consumed) && i < |entries|
    requires (after, result) == RegisterEntry(r, beans, entries[i]) && result.Thrown?
    ensures total == (after, result)
    ensures list == consumed + [ConsumedEntry(entries[i])] + entries[i + 1..]
  {
    UnfoldAt(r, beans, entries, i, after, result);
    var head := ConsumedEntry(entries[i]);
    assert consumed + ([head] + entries[i + 1..]) == consumed + [head] + entries[i + 1..];
  }

  /** `InitResult` and `ConsumedEntries` at position `i` of the list, given
      the outcome of registering that entry. */
  lemma UnfoldAt(r: Reflection, beans: map<string, Bean>, entries: seq<(string, Value)>, i: nat,
                 after: map<string, Bean>, result: Outcome<()>)
    requires i < |entries|
    requires (after, result) == RegisterEntry(r, beans, entries[i])
    ensures result.Thrown? ==> InitResult(r, beans, entries[i..]) == (after, result)
    ensures result.Thrown? ==> ConsumedEntries(r, beans, entries[i..]) == [ConsumedEntry(entries[i])] + entries[i + 1..]
    ensures result.Normal? ==> InitResult(r, beans, entries[i..]) == InitResult(r, after, entries[i + 1..])
    ensures result.Normal? ==>
              ConsumedEntries(r, beans, entries[i..]) == [ConsumedEntry(entries[i])] + ConsumedEntries(r, after, entries[i + 1..])
  {
    assert entries[i..][1..] == entries[i + 1..];
  }

  /** A definition with at most one `class` entry cannot create its bean a
      second time once createBean has consumed it: the class entry is gone,
      so instantiation fails. */
  lemma ConsumedDefinitionCannotBeReused(r: Reflection, def: Definition)
    requires AtMostOnce(def, "class")
    ensures CreateBeanResult(r, ConsumedDefinition(def)) == Thrown(IllegalArgument("Failed to instantiate bean."))
  {
    RemoveFirstLeavesNone(def, "class");
  }

  /** `init` keeps the names and the order of the list and changes no entry
      that is not a definition; once it completes, every definition of the
      list has had its `class` entry consumed. */
  lemma {:induction false} InitConsumesDefinitions(r: Reflection, beans: map<string, Bean>, entries: seq<(string, Value)>)
    ensures |ConsumedEntries(r, beans, entries)| == |entries|
    ensures forall i :: 0 <= i < |entries| ==> ConsumedEntries(r, beans, entries)[i].0 == entries[i].0
    ensures forall i :: 0 <= i < |entries| && !entries[i].1.List? ==> ConsumedEntries(r, beans, entries)[i] == entries[i]
    ensures InitResult(r, beans, entries).1.Normal? ==>
              forall i :: 0 <= i < |entries| && entries[i].1.List? ==>
                ConsumedEntries(r, beans, entries)[i].1 == List(ConsumedDefinition(entries[i].1.entries))
    decreases |entries|
  {
    if entries != [] {
      var step := RegisterEntry(r, beans, entries[0]);
      if step.1.Normal? {
        var rest := entries[1..];
        InitConsumesDefinitions(r, step.0, rest);
        var c := ConsumedEntries(r, beans, entries);
        assert forall i :: 1 <= i < |entries| ==> c[i] == ConsumedEntries(r, step.0, rest)[i - 1] && entries[i] == rest[i - 1];
      }
    }
  }

  /** The bean a well-formed definition yields: its first `class` entry
      names the class and every other entry, in order, becomes a property.
      A second `class` entry or an `ignoreErrors` entry is such a property:
      this variant interprets neither. */
  function ExpectedBean(def: Definition): Bean
    requires RemoveFirst(def, "class").0.Some? && RemoveFirst(def, "class").0.value.Str?
  {
    Bean(RemoveFirst(def, "class").0.value.s, RemoveFirst(def, "class").1)
  }

  /** createBean succeeds exactly when the class loads and every remaining
      entry is accepted as a property, and the bean it returns is the
      class with exactly those entries applied in definition order. */
  lemma CreateBeanSpec(r: Reflection, def: Definition)
    ensures CreateBeanResult(r, def).Normal? <==>
              && RemoveFirst(def, "class").0.Some? && RemoveFirst(def, "class").0.value.Str?
              && r.instantiable(RemoveFirst(def, "class").0.value.s)
              && AllSettable(r, RemoveFirst(def, "class").0.value.s, RemoveFirst(def, "class").1)
    ensures CreateBeanResult(r, def).Normal? ==> CreateBeanResult(r, def).value == ExpectedBean(def)
  {
    var (classEntry, props) := RemoveFirst(def, "class");
    if Instantiate(r, classEntry).Instantiated? {
      ConfigureSpec(r, Instantiate(r, classEntry).bean, props);
    }
  }

  /** Every failure of createBean is an exception: instantiation and
      property failures raise IllegalArgumentException, a class entry that
      is not a string raises ClassCastException. */
  lemma CreateBeanFailuresRaise(r: Reflection, def: Definition)
    ensures RemoveFirst(def, "class").0.Some? && RemoveFirst(def, "class").0.value.Str?
            && !r.instantiable(RemoveFirst(def, "class").0.value.s)
            ==> CreateBeanResult(r, def) == Thrown(IllegalArgument("Failed to instantiate bean."))
    ensures RemoveFirst(def, "class").0.Some? && RemoveFirst(def, "class").0.value.Str?
            && r.instantiable(RemoveFirst(def, "class").0.value.s)
            && !AllSettable(r, RemoveFirst(def, "class").0.value.s, RemoveFirst(def, "class").1)
            ==> CreateBeanResult(r, def) == Thrown(IllegalArgument("Failed to configure bean."))
  {
    var (classEntry, props) := RemoveFirst(def, "class");
    if Instantiate(r, classEntry).Instantiated? {
      ConfigureSpec(r, Instantiate(r, classEntry).bean, props);
    }
  }

  /** A failed registration leaves the map as it was; a duplicate name is
      overwritten with the new bean and then reported. */
  lemma RegisterSpec(r: Reflection, beans: map<string, Bean>, name: string, def: Definition)
    ensures CreateBeanResult(r, def).Thrown? ==>
              RegisterResult(r, beans, name, Some(def)) == (beans, Thrown(CreateBeanResult(r, def).exception))
    ensures CreateBeanResult(r, def).Normal? && name in beans ==>
              RegisterResult(r, beans, name, Some(def)).0 == beans[name := CreateBeanResult(r, def).value]
              && RegisterResult(r, beans, name, Some(def)).1.Thrown?
              && RegisterResult(r, beans, name, Some(def)).1.exception.IllegalState?
  {
  }

  /** Names of the entries of the `beans` list are pairwise different and
      not yet registered. */
  predicate FreshNames(beans: map<string, Bean>, entries: seq<(string, Value)>) {
    && (forall i :: 0 <= i < |entries| ==> entries[i].0 !in beans)
    && (forall i, j :: 0 <= i < j < |entries| ==> entries[i].0 != entries[j].0)
  }

  /** Every entry of the list is a definition whose bean can be created. */
  predicate AllCreatable(r: Reflection, entries: seq<(string, Value)>) {
    forall i :: 0 <= i < |entries| ==> entries[i].1.List? && CreateBeanResult(r, entries[i].1.entries).Normal?
  }

  /** The names of the entries of a list. */
  function Names(entries: seq<(string, Value)>): set<string> {
    set i | 0 <= i < |entries| :: entries[i].0
  }

  /** The beans a list of creatable definitions yields, by name. */
  function Collected(r: Reflection, entries: seq<(string, Value)>): map<string, Bean>
    requires AllCreatable(r, entries)
    decreases |entries|
  {
    if entries == [] then map[]
    else
      var rest := entries[1..];
      assert AllCreatable(r, rest) by { assert forall i :: 0 <= i < |rest| ==> rest[i] == entries[i + 1]; }
      Collected(r, rest)[entries[0].0 := CreateBeanResult(r, entries[0].1.entries).value]
  }

  /** The collected map holds exactly the listed names. */
  lemma {:induction false} CollectedKeys(r: Reflection, entries: seq<(string, Value)>)
    requires AllCreatable(r, entries)
    ensures Collected(r, entries).Keys == Names(entries)
    decreases |entries|
  {
    if entries != [] {
      var rest := entries[1..];
      assert forall i :: 0 <= i < |rest| ==> rest[i] == entries[i + 1];
      CollectedKeys(r, rest);
      assert Names(entries) == {entries[0].0} + Names(rest) by {
        forall x | x in Names(entries) ensures x in {entries[0].0} + Names(rest) {
          var i :| 0 <= i < |entries| && entries[i].0 == x;
          if i > 0 { assert rest[i - 1].0 == x; }
        }
      }
    }
  }

  /** With distinct names, each listed name is bound to the bean of its own
      definition. */
  lemma {:induction false} CollectedValues(r: Reflection, entries: seq<(string, Value)>)
    requires AllCreatable(r, entries)
    requires FreshNames(map[], entries)
    ensures forall i :: 0 <= i < |entries| ==>
              entries[i].0 in Collected(r, entries)
              && Collected(r, entries)[entries[i].0] == CreateBeanResult(r, entries[i].1.entries).value
    decreases |entries|
  {
    if entries != [] {
      var rest := entries[1..];
      assert forall i :: 0 <= i < |rest| ==> rest[i] == entries[i + 1];
      CollectedValues(r, rest);
      forall i | 0 < i < |entries|
        ensures entries[i].0 in Collected(r, entries)
        ensures Collected(r, entries)[entries[i].0] == CreateBeanResult(r, entries[i].1.entries).value
      {
        assert rest[i - 1] == entries[i];
      }
    }
  }

  /** init registers every bean of a list of fresh, creatable definitions
      under its name, keeps every bean it is not given, and completes
      normally. */
  lemma {:induction false} InitRegistersAll(r: Reflection, beans: map<string, Bean>, entries: seq<(string, Value)>)
    requires FreshNames(beans, entries)
    requires AllCreatable(r, entries)
    ensures InitResult(r, beans, entries) == (beans + Collected(r, entries), Normal(()))
    decreases |entries|
  {
    if entries != [] {
      var (name, v) := entries[0];
      var bean := CreateBeanResult(r, v.entries).value;
      var next := beans[name := bean];
      var rest := entries[1..];
      assert forall i :: 0 <= i < |rest| ==> rest[i] == entries[i + 1];
      assert AllCreatable(r, rest);
      assert FreshNames(next, rest);
      assert FreshNames(map[], rest);
      assert InitResult(r, beans, entries) == InitResult(r, next, rest) by {
        assert RegisterEntry(r, beans, entries[0]) == (next, Normal(()));
      }
      InitRegistersAll(r, next, rest);
      CollectedKeys(r, rest);
      assert name !in Names(rest);
      PutThenUnion(beans, Collected(r, rest), name, bean);
      assert Collected(r, entries) == Collected(r, rest)[name := bean];
    } else {
      assert beans + map[] == beans;
    }
  }

  lemma PutThenUnion(beans: map<string, Bean>, m: map<string, Bean>, name: string, bean: Bean)
    requires name !in m
    ensures beans + m[name := bean] == beans[name := bean] + m
  {
  }

  /** The first failing entry stops init: the beans registered before it
      stay registered and its exception propagates. */
  lemma {:induction false} InitStopsAtFirstFailure(r: Reflection, beans: map<string, Bean>,
                                                   done: seq<(string, Value)>, failing: (string, Value),
                                                   later: seq<(string, Value)>)
    requires FreshNames(beans, done)
    requires AllCreatable(r, done)
    requires RegisterEntry(r, InitResult(r, beans, done).0, failing).1.Thrown?
    ensures InitResult(r, beans, done + [failing] + later)
            == RegisterEntry(r, InitResult(r, beans, done).0, failing)
    decreases |done|
  {
    var all := done + [failing] + later;
    if done == [] {
      assert all[0] == failing;
    } else {
      var (name, v) := done[0];
      var next := beans[name := CreateBeanResult(r, v.entries).value];
      assert all[0] == done[0];
      assert all[1..] == done[1..] + [failing] + later;
      assert RegisterEntry(r, beans, done[0]) == (next, Normal(()));
      assert InitResult(r, beans, done) == InitResult(r, next, done[1..]);
      var rest := done[1..];
      assert FreshNames(next, rest) by {
        forall i | 0 <= i < |rest| ensures rest[i].0 !in next {
          assert rest[i] == done[i + 1];
        }
        forall i, j | 0 <= i < j < |rest| ensures rest[i].0 != rest[j].0 {
          assert rest[i] == done[i + 1] && rest[j] == done[j + 1];
        }
      }
      assert AllCreatable(r, rest) by {
        forall i | 0 <= i < |rest| ensures rest[i].1.List? && CreateBeanResult(r, rest[i].1.entries).Normal? {
          assert rest[i] == done[i + 1];
        }
      }
      InitStopsAtFirstFailure(r, next, rest, failing, later);
    }
  }

  /** The process-wide bean map of ConfiguringHttpShardHandlerFactory. */
  class Registry {
    var beans: map<string, Bean>

    constructor ()
      ensures beans == map[]
    {
      beans := map[];
    }

    /** `lookUp(beanName, expectedClass)`: the bean registered under the
        name, or null. A bean of another class than expected is returned
        all the same (the mismatch is only logged), so the result does not
        depend on `expectedClass`. */
    method LookUpAs(beanName: string, expectedClass: string) returns (bean: Option<Bean>)
      ensures bean.None? <==> beanName !in beans
      ensures bean.Some? ==> bean.value == beans[beanName]
    {
      bean := Get(beans, beanName);
    }

    /** `lookUp(beanName)`: the same as asking for a java.lang.Object. */
    method LookUp(beanName: string) returns (bean: Option<Bean>)
      ensures bean.None? <==> beanName !in beans
      ensures bean.Some? ==> bean.value == beans[beanName]
    {
      bean := LookUpAs(beanName, "java.lang.Object");
    }

    /** `clear()`: forgets every bean, so every later lookUp yields null. */
    method Clear()
      modifies this
      ensures beans == map[]
      ensures forall name :: name !in beans
    {
      beans := map[];
    }

    /** `createBean(beanName, beanDefinition)`: consumes the first `class`
        entry, instantiates that class, then sets the remaining entries as
        properties in list order; the first failure raises. `consumed` is
        the caller's definition afterwards. */
    method CreateBean(r: Reflection, beanName: string, beanDefinition: Definition)
      returns (result: Outcome<Bean>, consumed: Definition)
      ensures result == CreateBeanResult(r, beanDefinition)
      ensures consumed == ConsumedDefinition(beanDefinition)
    {
      var (beanClassName, definition) := RemoveFirst(beanDefinition, "class");
      consumed := definition;
      var instantiation := Instantiate(r, beanClassName);
      if instantiation.NotAString? {
        result := Thrown(ClassCast);
        return;
      }
      if instantiation.NotInstantiable? {
        result := Thrown(IllegalArgument("Failed to instantiate bean."));
        return;
      }
      var bean := instantiation.bean;
      for i := 0 to |definition|
        invariant bean.className == instantiation.bean.className
        invariant Configure(r, instantiation.bean, definition) == Configure(r, bean, definition[i..])
      {
        var (key, value) := definition[i];
        if !r.settable(bean.className, key, value) {
          result := Thrown(IllegalArgument("Failed to configure bean."));
          return;
        }
        bean := Bean(bean.className, bean.properties + [definition[i]]);
      }
      result := Normal(bean);
    }

    /** `registerBean(beanName, beanDefinition)`; `consumed` is the caller's
        definition afterwards. */
    method RegisterBean(r: Reflection, beanName: string, beanDefinition: Option<Definition>)
      returns (result: Outcome<()>, consumed: Option<Definition>)
      modifies this
      ensures (beans, result) == RegisterResult(r, old(beans), beanName, beanDefinition)
      ensures beanDefinition.None? ==> consumed.None?
      ensures beanDefinition.Some? ==> consumed == Some(ConsumedDefinition(beanDefinition.value))
    {
      if beanDefinition.None? {
        return Thrown(NullPointer), None;
      }
      var bean, rest := CreateBean(r, beanName, beanDefinition.value);
      consumed := Some(rest);
      if bean.Thrown? {
        result := Thrown(bean.exception);
        return;
      }
      var removed := Get(beans, beanName);
      beans := beans[beanName := bean.value];
      if removed.Some? {
        result := Thrown(IllegalState(beanName + " has been defined twice."));
        return;
      }
      result := Normal(());
    }

    /** `init(info)`: registers the beans of the `beans` entry of the
        plugin's init args, in list order; without such an entry nothing is
        registered. `beanList` is what the `beans` entry of the init args
        holds afterwards: its definitions are consumed in place. Handing
        `info` on to HttpShardHandlerFactory is not modelled. */
    method Init(r: Reflection, initArgs: Definition) returns (result: Outcome<()>, beanList: Option<Value>)
      modifies this
      ensures GetFirst(initArgs, "beans") == None || GetFirst(initArgs, "beans") == Some(Null) ==>
                beans == old(beans) && result == Normal(())
      ensures GetFirst(initArgs, "beans").Some? && GetFirst(initArgs, "beans").value.List? ==>
                (beans, result) == InitResult(r, old(beans), GetFirst(initArgs, "beans").value.entries)
      ensures GetFirst(initArgs, "beans").Some? && !GetFirst(initArgs, "beans").value.List?
              && GetFirst(initArgs, "beans").value != Null ==>
                beans == old(beans) && result == Thrown(ClassCast)
      ensures GetFirst(initArgs, "beans").Some? && GetFirst(initArgs, "beans").value.List? ==>
                beanList == Some(List(ConsumedEntries(r, old(beans), GetFirst(initArgs, "beans").value.entries)))
      ensures !(GetFirst(initArgs, "beans").Some? && GetFirst(initArgs, "beans").value.List?) ==>
                beanList == GetFirst(initArgs, "beans")
    {
      var list := GetFirst(initArgs, "beans");
      beanList := list;
      if list == None || list == Some(Null) {
        return Normal(()), beanList;
      }
      if !list.value.List? {
        return Thrown(ClassCast), beanList;
      }
      var entries;
      result, entries := RegisterAll(r, list.value.entries);
      beanList := Some(List(entries));
    }

    /** One iteration of the loop of `init`: the `(NamedList<?>)` cast of
        the entry's value, then `registerBean`; `head` is the entry
        afterwards. */
    method RegisterListEntry(r: Reflection, entry: (string, Value)) returns (result: Outcome<()>, head: (string, Value))
      modifies this
      ensures (beans, result) == RegisterEntry(r, old(beans), entry)
      ensures head == ConsumedEntry(entry)
    {
      var (beanName, value) := entry;
      head := entry;
      if value.Null? {
        var none;
        result, none := RegisterBean(r, beanName, None);
      } else if value.List? {
        var rest;
        result, rest := RegisterBean(r, beanName, Some(value.entries));
        head := (beanName, List(rest.value));
      } else {
        result := Thrown(ClassCast);
      }
    }

    /** The loop of `init` over the entries of the `beans` list; `consumed`
        is the list afterwards. */
    method RegisterAll(r: Reflection, entries: seq<(string, Value)>)
      returns (result: Outcome<()>, consumed: seq<(string, Value)>)
      modifies this
      ensures (beans, result) == InitResult(r, old(beans), entries)
      ensures consumed == ConsumedEntries(r, old(beans), entries)
    {
      consumed := [];
      ghost var total := InitResult(r, beans, entries);
      ghost var list := ConsumedEntries(r, beans, entries);
      assert entries[0..] == entries;
      for i := 0 to |entries|
        invariant InitProgress(r, total, list, entries, i, beans, consumed)
      {
        ghost var before := beans;
        var head;
        result, head := RegisterListEntry(r, entries[i]);
        if result.Thrown? {
          InitStop(r, total, list, entries, i, before, consumed, beans, result);
          return result, consumed + [head] + entries[i + 1..];
        }
        UnfoldAt(r, before, entries, i, beans, result);
        InitStep(r, total, list, entries, i, before, consumed, beans);
        consumed := consumed + [head];
      }
      result := Normal(());
      assert consumed + [] == consumed;
    }
  }
}
