/** ConfiguringHttShardHandlerFactory: the lenient bean registry. A bean
    name that is already registered is kept as it is (computeIfAbsent), and
    unless a definition says `ignoreErrors` = "false", a bean that cannot be
    instantiated or configured is skipped instead of raising. The static
    `beans` map of the Java class is the `beans` field of the one
    `Registry` object. */
module ConfiguringHttShardHandlerFactory {
  import opened Java
  import opened Beans

  /** `!"false".equals(beanDefinition.remove("ignoreErrors"))`: errors are
      ignored unless the first `ignoreErrors` entry is exactly the string
      "false" (a boolean false, a missing entry or any other text all mean
      "ignore"). */
  function IgnoreErrors(def: Definition): (ignore: bool)
    ensures !ignore <==> GetFirst(def, "ignoreErrors") == Some(Str("false"))
  {
    RemoveFirst(def, "ignoreErrors").0 != Some(Str("false"))
  }

  /** What the inner `createBean(name, definition, ignore)` returns or
      raises: a configured bean, null for a skipped failure, or an
      exception. The `(String)` cast of the class entry sits outside the
      try block, so a non-string class raises even when ignoring. */
  function CreateBeanResult(r: Reflection, def: Definition, ignore: bool): Outcome<Option<Bean>> {
    var (classEntry, props) := RemoveFirst(def, "class");
    match Instantiate(r, classEntry)
    case NotAString => Thrown(ClassCast)
    case NotInstantiable =>
      if ignore then Normal(None) else Thrown(IllegalArgument("Failed to instantiate bean."))
    case Instantiated(bean) =>
      match Configure(r, bean, props)
      case None => if ignore then Normal(None) else Thrown(IllegalArgument("Failed to configure bean."))
      case Some(configured) => Normal(Some(configured))
  }

  /** What the outer `createBean(name, definition)` does to the map and how
      it completes. A null definition fails `checkNotNull`. The
      `ignoreErrors` entry is consumed before the map is consulted; a name
      already present keeps its bean and nothing is created; otherwise a
      created bean is put, a skipped one leaves no mapping, and an exception
      propagates out of computeIfAbsent with the map unchanged. */
  function RegisterResult(r: Reflection, beans: map<string, Bean>, name: string, def: Option<Definition>)
    : (map<string, Bean>, Outcome<()>)
  {
    match def
    case None => (beans, Thrown(NullPointer))
    case Some(d) =>
      var ignore := IgnoreErrors(d);
      var rest := RemoveFirst(d, "ignoreErrors").1;
      if name in beans then (beans, Normal(()))
      else
        match CreateBeanResult(r, rest, ignore)
        case Thrown(e) => (beans, Thrown(e))
        case Normal(None) => (beans, Normal(()))
        case Normal(Some(bean)) => (beans[name := bean], Normal(()))
  }

  /** One loop iteration of `init`: the `(NamedList<?>)` cast of the entry's
      value, then the outer createBean. */
  function RegisterEntry(r: Reflection, beans: map<string, Bean>, entry: (string, Value))
    : (map<string, Bean>, Outcome<()>)
  {
    match entry.1
    case Null => RegisterResult(r, beans, entry.0, None)
    case List(d) => RegisterResult(r, beans, entry.0, Some(d))
    case _ => (beans, Thrown(ClassCast))
  }

  /** What `init` does with the entries of the `beans` list, in order; the
      first exception ends the loop and propagates. */
  function InitResult(r: Reflection, beans: map<string, Bean>, entries: seq<(string, Value)>)
    : (map<string, Bean>, Outcome<()>)
    decreases |entries|
  {
    if entries == [] then (beans, Normal(()))
    else
      var step := RegisterEntry(r, beans, entries[0]);
      if step.1.Thrown? then step else InitResult(r, step.0, entries[1..])
  }

  /** The inner createBean yields a bean exactly when the class loads and
      every remaining entry is accepted as a property, whatever the ignore
      flag; the bean is that class with those entries applied in order. */
  lemma CreateBeanSpec(r: Reflection, def: Definition, ignore: bool)
    ensures CreateBeanResult(r, def, ignore).Normal? && CreateBeanResult(r, def, ignore).value.Some? <==>
              && RemoveFirst(def, "class").0.Some? && RemoveFirst(def, "class").0.value.Str?
              && r.instantiable(RemoveFirst(def, "class").0.value.s)
              && AllSettable(r, RemoveFirst(def, "class").0.value.s, RemoveFirst(def, "class").1)
    ensures CreateBeanResult(r, def, ignore).Normal? && CreateBeanResult(r, def, ignore).value.Some? ==>
              CreateBeanResult(r, def, ignore).value.value
                == Bean(RemoveFirst(def, "class").0.value.s, RemoveFirst(def, "class").1)
  {
    var (classEntry, props) := RemoveFirst(def, "class");
    if Instantiate(r, classEntry).Instantiated? {
      ConfigureSpec(r, Instantiate(r, classEntry).bean, props);
    }
  }

  /** Failure policy: when the class entry is a string (or missing) but
      the bean cannot be built, it is skipped (null) when ignoring and
      raises IllegalArgumentException otherwise. */
  lemma FailurePolicy(r: Reflection, def: Definition, ignore: bool)
    requires !Instantiate(r, RemoveFirst(def, "class").0).NotAString?
    requires !(&& RemoveFirst(def, "class").0.Some? && RemoveFirst(def, "class").0.value.Str?
               && r.instantiable(RemoveFirst(def, "class").0.value.s)
               && AllSettable(r, RemoveFirst(def, "class").0.value.s, RemoveFirst(def, "class").1))
    ensures ignore ==> CreateBeanResult(r, def, ignore) == Normal(None)
    ensures !ignore ==> CreateBeanResult(r, def, ignore).Thrown?
                        && CreateBeanResult(r, def, ignore).exception.IllegalArgument?
  {
    var (classEntry, props) := RemoveFirst(def, "class");
    if Instantiate(r, classEntry).Instantiated? {
      ConfigureSpec(r, Instantiate(r, classEntry).bean, props);
    }
  }

  /** A name that is already registered keeps its bean whatever the new
      definition says and whatever reflection does: computeIfAbsent never
      calls the creation function. */
  lemma RegisteredNameIsKept(r: Reflection, beans: map<string, Bean>, name: string, def: Definition)
    requires name in beans
    ensures RegisterResult(r, beans, name, Some(def)) == (beans, Normal(()))
  {
  }

  /** For a fresh name, the first `ignoreErrors` entry decides: with a
      class that cannot be loaded, registration raises exactly when that
      entry is the string "false", and leaves the map unchanged either way. */
  lemma IgnoreErrorsDecides(r: Reflection, beans: map<string, Bean>, name: string, def: Definition)
    requires name !in beans
    requires var c := RemoveFirst(RemoveFirst(def, "ignoreErrors").1, "class").0;
             c.Some? && c.value.Str? && !r.instantiable(c.value.s)
    ensures RegisterResult(r, beans, name, Some(def)).0 == beans
    ensures RegisterResult(r, beans, name, Some(def)).1.Thrown?
            <==> GetFirst(def, "ignoreErrors") == Some(Str("false"))
  {
  }

  /** init never replaces or removes a registered bean, whether it
      completes or raises. */
  lemma {:induction false} InitKeepsRegistered(r: Reflection, beans: map<string, Bean>, entries: seq<(string, Value)>)
    ensures forall name :: name in beans ==>
              name in InitResult(r, beans, entries).0 && InitResult(r, beans, entries).0[name] == beans[name]
    decreases |entries|
  {
    if entries != [] {
      var step := RegisterEntry(r, beans, entries[0]);
      if !step.1.Thrown? {
        InitKeepsRegistered(r, step.0, entries[1..]);
      }
    }
  }

  /** init only adds beans under names of the list. */
  lemma {:induction false} InitAddsListedNames(r: Reflection, beans: map<string, Bean>, entries: seq<(string, Value)>)
    ensures forall name :: name in InitResult(r, beans, entries).0 ==>
              name in beans || exists i :: 0 <= i < |entries| && entries[i].0 == name
    decreases |entries|
  {
    if entries != [] {
      var step := RegisterEntry(r, beans, entries[0]);
      assert step.0.Keys <= beans.Keys + {entries[0].0};
      if !step.1.Thrown? {
        var rest := entries[1..];
        InitAddsListedNames(r, step.0, rest);
        forall name | name in InitResult(r, beans, entries).0
          ensures name in beans || exists i :: 0 <= i < |entries| && entries[i].0 == name
        {
          if name !in step.0 {
            var j :| 0 <= j < |rest| && rest[j].0 == name;
            assert entries[j + 1].0 == name;
          } else if name !in beans {
            assert entries[0].0 == name;
          }
        }
      }
    }
  }

  /** What the outer `createBean` leaves of the caller's definition: its
      first `ignoreErrors` entry is removed in place even when the name is
      already registered, and the inner createBean, which runs only for a
      fresh name, then removes the first `class` entry. */
  function ConsumedDefinition(beans: map<string, Bean>, name: string, def: Definition): Definition {
    var rest := RemoveFirst(def, "ignoreErrors").1;
    if name in beans then rest else RemoveFirst(rest, "class").1
  }

  /** One entry of the `beans` list after the loop of `init` reached it
      with the map `beans`. */
  function ConsumedEntry(beans: map<string, Bean>, entry: (string, Value)): (string, Value) {
    if entry.1.List? then (entry.0, List(ConsumedDefinition(beans, entry.0, entry.1.entries))) else entry
  }

  /** The `beans` list as `init` leaves it behind in the plugin's init args:
      every entry the loop reached is consumed as the map stood then; the
      entries after the first exception are untouched. */
  function ConsumedEntries(r: Reflection, beans: map<string, Bean>, entries: seq<(string, Value)>)
    : seq<(string, Value)>
    decreases |entries|
  {
    if entries == [] then []
    else
      var step := RegisterEntry(r, beans, entries[0]);
      if step.1.Thrown? then [ConsumedEntry(beans, entries[0])] + entries[1..]
      else [ConsumedEntry(beans, entries[0])] + ConsumedEntries(r, step.0, entries[1..])
  }

  /** A definition with at most one `class` and one `ignoreErrors` entry
      that has created its bean once is skipped silently when it is
      registered again (after `clear()`, say), even if it said
      `ignoreErrors` = "false": both entries are gone, so errors are
      ignored and the class cannot be loaded. */
  lemma ConsumedDefinitionIsSkipped(r: Reflection, beans: map<string, Bean>, name: string, def: Definition,
                                    later: map<string, Bean>, laterName: string)
    requires name !in beans
    requires AtMostOnce(def, "class") && AtMostOnce(def, "ignoreErrors")
    ensures RegisterResult(r, later, laterName, Some(ConsumedDefinition(beans, name, def))) == (later, Normal(()))
  {
    var rest := RemoveFirst(def, "ignoreErrors").1;
    RemoveFirstLeavesNone(def, "ignoreErrors");
    RemoveFirstKeepsOther(def, "ignoreErrors", "class");
    RemoveFirstLeavesNone(rest, "class");
    RemoveFirstKeepsOther(rest, "class", "ignoreErrors");
  }

  /** `init` keeps the names and the order of the list and changes no entry
      that is not a definition; once it completes, every definition of the
      list has lost its `ignoreErrors` entry, and its `class` entry too
      when its name was fresh. */
  lemma {:induction false} InitConsumesDefinitions(r: Reflection, beans: map<string, Bean>, entries: seq<(string, Value)>)
    ensures |ConsumedEntries(r, beans, entries)| == |entries|
    ensures forall i :: 0 <= i < |entries| ==> ConsumedEntries(r, beans, entries)[i].0 == entries[i].0
    ensures forall i :: 0 <= i < |entries| && !entries[i].1.List? ==> ConsumedEntries(r, beans, entries)[i] == entries[i]
    ensures InitResult(r, beans, entries).1.Normal? ==>
              forall i :: 0 <= i < |entries| && entries[i].1.List? ==>
                var rest := RemoveFirst(entries[i].1.entries, "ignoreErrors").1;
                ConsumedEntries(r, beans, entries)[i].1 in {List(rest), List(RemoveFirst(rest, "class").1)}
    decreases |entries|
  {
    if entries != [] {
      var step := RegisterEntry(r, beans, entries[0]);
      if step.1.Normal? {
        var rest := entries[1..];
        InitConsumesDefinitions(r, step.0, rest);
        var c := ConsumedEntries(r, beans, entries);
        assert forall i :: 1 <= i < |entries| ==> c[i] == ConsumedEntries(r, step.0, rest)[i - 1] && entries[i] == rest[i - 1];
      }
    }
  }

  /** The loop of `init` has handled the first `i` entries of the list:
      the map is now `beans`, the handled entries read `consumed`, and the
      rest of the loop ends init with `total` and leaves the list as
      `list`. */
  ghost predicate InitProgress(r: Reflection, total: (map<string, Bean>, Outcome<()>), list: seq<(string, Value)>,
                               entries: seq<(string, Value)>, i: nat,
                               beans: map<string, Bean>, consumed: seq<(string, Value)>)
  {
    && i <= |entries|
    && total == InitResult(r, beans, entries[i..])
    && list == consumed + ConsumedEntries(r, beans, entries[i..])
  }

  /** Registering entry `i` successfully moves the loop of `init` on by one
      (`UnfoldAt` gives the two steps it needs). */
  lemma InitStep(r: Reflection, total: (map<string, Bean>, Outcome<()>), list: seq<(string, Value)>,
                 entries: seq<(string, Value)>, i: nat,
                 beans: map<string, Bean>, consumed: seq<(string, Value)>, after: map<string, Bean>)
    requires InitProgress(r, total, list, entries, i, beans, consumed) && i < |entries|
    requires InitResult(r, beans, entries[i..]) == InitResult(r, after, entries[i + 1..])
    requires ConsumedEntries(r, beans, entries[i..]) == [ConsumedEntry(beans, entries[i])] + ConsumedEntries(r, after, entries[i + 1..])
    ensures InitProgress(r, total, list, entries, i + 1, after, consumed + [ConsumedEntry(beans, entries[i])])
  {
    var head := ConsumedEntry(beans, entries[i]);
    assert consumed + ([head] + ConsumedEntries(r, after, entries[i + 1..]))
           == consumed + [head] + ConsumedEntries(r, after, entries[i + 1..]);
  }

  /** An exception from entry `i` ends init with that exception and leaves
      the list with entry `i` consumed and the later entries untouched. */
  lemma InitStop(r: Reflection, total: (map<string, Bean>, Outcome<()>), list: seq<(string, Value)>,
                 entries: seq<(string, Value)>, i: nat,
                 beans: map<string, Bean>, consumed: seq<(string, Value)>,
                 after: map<string, Bean>, result: Outcome<()>)
    requires InitProgress(r, total, list, entries, i, beans, consumed) && i < |entries|
    requires (after, result) == RegisterEntry(r, beans, entries[i]) && result.Thrown?
    ensures total == (after, result)
    ensures list == consumed + [ConsumedEntry(beans, entries[i])] + entries[i + 1..]
  {
    UnfoldAt(r, beans, entries, i, after, result);
    var head := ConsumedEntry(beans, entries[i]);
    assert consumed + ([head] + entries[i + 1..]) == consumed + [head] + entries[i + 1..];
  }

  /** `InitResult` and `ConsumedEntries` at position `i` of the list, given
      the outcome of registering that entry. */
  lemma UnfoldAt(r: Reflection, beans: map<string, Bean>, entries: seq<(string, Value)>, i: nat,
                 after: map<string, Bean>, result: Outcome<()>)
    requires i < |entries|
    requires (after, result) == RegisterEntry(r, beans, entries[i])
    ensures result.Thrown? ==> InitResult(r, beans, entries[i..]) == (after, result)
    ensures result.Thrown? ==> ConsumedEntries(r, beans, entries[i..]) == [ConsumedEntry(beans, entries[i])] + entries[i + 1..]
    ensures result.Normal? ==> InitResult(r, beans, entries[i..]) == InitResult(r, after, entries[i + 1..])
    ensures result.Normal? ==>
              ConsumedEntries(r, beans, entries[i..]) == [ConsumedEntry(beans, entries[i])] + ConsumedEntries(r, after, entries[i + 1..])
  {
    assert entries[i..][1..] == entries[i + 1..];
  }

  /** The process-wide bean map of ConfiguringHttShardHandlerFactory. */
  class Registry {
    var beans: map<string, Bean>

    constructor ()
      ensures beans == map[]
    {
      beans := map[];
    }

    /** `lookUp(beanName, expectedClass)`: the bean registered under the
        name, or null. A bean of another class than expected is returned
        all the same (the mismatch is only logged). */
    method LookUpAs(beanName: string, expectedClass: string) returns (bean: Option<Bean>)
      ensures bean.None? <==> beanName !in beans
      ensures bean.Some? ==> bean.value == beans[beanName]
    {
      bean := Get(beans, beanName);
    }

    /** `lookUp(beanName)`: the same as asking for a java.lang.Object. */
    method LookUp(beanName: string) returns (bean: Option<Bean>)
      ensures bean.None? <==> beanName !in beans
      ensures bean.Some? ==> bean.value == beans[beanName]
    {
      bean := LookUpAs(beanName, "java.lang.Object");
    }

    /** `clear()`: forgets every bean. */
    method Clear()
      modifies this
      ensures beans == map[]
    {
      beans := map[];
    }

    /** The inner `createBean(beanName, beanDefinition, ignore)`: consumes
        the first `class` entry, instantiates that class, then sets the
        remaining entries as properties in order; a failure returns null
        when ignoring and raises otherwise. `consumed` is the caller's
        definition afterwards. */
    method InstantiateBean(r: Reflection, beanName: string, beanDefinition: Definition, ignore: bool)
      returns (result: Outcome<Option<Bean>>, consumed: Definition)
      ensures result == CreateBeanResult(r, beanDefinition, ignore)
      ensures consumed == RemoveFirst(beanDefinition, "class").1
    {
      var (beanClassName, definition) := RemoveFirst(beanDefinition, "class");
      consumed := definition;
      var instantiation := Instantiate(r, beanClassName);
      if instantiation.NotAString? {
        result := Thrown(ClassCast);
        return;
      }
      if instantiation.NotInstantiable? {
        result := if ignore then Normal(None) else Thrown(IllegalArgument("Failed to instantiate bean."));
        return;
      }
      var bean := instantiation.bean;
      for i := 0 to |definition|
        invariant bean.className == instantiation.bean.className
        invariant Configure(r, instantiation.bean, definition) == Configure(r, bean, definition[i..])
      {
        var (key, value) := definition[i];
        if !r.settable(bean.className, key, value) {
          result := if ignore then Normal(None) else Thrown(IllegalArgument("Failed to configure bean."));
          return;
        }
        bean := Bean(bean.className, bean.properties + [definition[i]]);
      }
      result := Normal(Some(bean));
    }

    /** The outer `createBean(beanName, beanDefinition)`; `consumed` is the
        caller's definition afterwards. */
    method CreateBean(r: Reflection, beanName: string, beanDefinition: Option<Definition>)
      returns (result: Outcome<()>, consumed: Option<Definition>)
      modifies this
      ensures (beans, result) == RegisterResult(r, old(beans), beanName, beanDefinition)
      ensures beanDefinition.None? ==> consumed.None?
      ensures beanDefinition.Some? ==> consumed == Some(ConsumedDefinition(old(beans), beanName, beanDefinition.value))
    {
      if beanDefinition.None? {
        return Thrown(NullPointer), None;
      }
      var (ignoreErrors, definition) := RemoveFirst(beanDefinition.value, "ignoreErrors");
      var ignore := ignoreErrors != Some(Str("false"));
      if beanName in beans {
        return Normal(()), Some(definition);
      }
      var bean, rest := InstantiateBean(r, beanName, definition, ignore);
      consumed := Some(rest);
      if bean.Thrown? {
        result := Thrown(bean.exception);
        return;
      }
      if bean.value.Some? {
        beans := beans[beanName := bean.value.value];
      }
      result := Normal(());
    }

    /** `init(info)`: creates the beans of the `beans` entry of the plugin's
        init args, in list order; without such an entry nothing happens.
        `beanList` is what the `beans` entry of the init args holds
        afterwards: its definitions are consumed in place. Handing `info`
        on to HttpShardHandlerFactory is not modelled. */
    method Init(r: Reflection, initArgs: Definition) returns (result: Outcome<()>, beanList: Option<Value>)
      modifies this
      ensures GetFirst(initArgs, "beans") == None || GetFirst(initArgs, "beans") == Some(Null) ==>
                beans == old(beans) && result == Normal(())
      ensures GetFirst(initArgs, "beans").Some? && GetFirst(initArgs, "beans").value.List? ==>
                (beans, result) == InitResult(r, old(beans), GetFirst(initArgs, "beans").value.entries)
      ensures GetFirst(initArgs, "beans").Some? && !GetFirst(initArgs, "beans").value.List?
              && GetFirst(initArgs, "beans").value != Null ==>
                beans == old(beans) && result == Thrown(ClassCast)
      ensures GetFirst(initArgs, "beans").Some? && GetFirst(initArgs, "beans").value.List? ==>
                beanList == Some(List(ConsumedEntries(r, old(beans), GetFirst(initArgs, "beans").value.entries)))
      ensures !(GetFirst(initArgs, "beans").Some? && GetFirst(initArgs, "beans").value.List?) ==>
                beanList == GetFirst(initArgs, "beans")
    {
      var list := GetFirst(initArgs, "beans");
      beanList := list;
      if list == None || list == Some(Null) {
        return Normal(()), beanList;
      }
      if !list.value.List? {
        return Thrown(ClassCast), beanList;
      }
      var entries;
      result, entries := CreateAll(r, list.value.entries);
      beanList := Some(List(entries));
    }

    /** One iteration of the loop of `init`: the `(NamedList<?>)` cast of
        the entry's value, then the outer createBean; `head` is the entry
        afterwards. */
    method CreateListEntry(r: Reflection, entry: (string, Value)) returns (result: Outcome<()>, head: (string, Value))
      modifies this
      ensures (beans, result) == RegisterEntry(r, old(beans), entry)
      ensures head == ConsumedEntry(old(beans), entry)
    {
      var (beanName, value) := entry;
      head := entry;
      if value.Null? {
        var none;
        result, none := CreateBean(r, beanName, None);
      } else if value.List? {
        var rest;
        result, rest := CreateBean(r, beanName, Some(value.entries));
        head := (beanName, List(rest.value));
      } else {
        result := Thrown(ClassCast);
      }
    }

    /** The loop of `init` over the entries of the `beans` list; `consumed`
        is the list afterwards. */
    method CreateAll(r: Reflection, entries: seq<(string, Value)>)
      returns (result: Outcome<()>, consumed: seq<(string, Value)>)
      modifies this
      ensures (beans, result) == InitResult(r, old(beans), entries)
      ensures consumed == ConsumedEntries(r, old(beans), entries)
    {
      consumed := [];
      ghost var total := InitResult(r, beans, entries);
      ghost var list := ConsumedEntries(r, beans, entries);
      assert entries[0..] == entries;
      for i := 0 to |entries|
        invariant InitProgress(r, total, list, entries, i, beans, consumed)
      {
        ghost var before := beans;
        var head;
        result, head := CreateListEntry(r, entries[i]);
        if result.Thrown? {
          InitStop(r, total, list, entries, i, before, consumed, beans, result);
          return result, consumed + [head] + entries[i + 1..];
        }
        UnfoldAt(r, before, entries, i, beans, result);
        InitStep(r, total, list, entries, i, before, consumed, beans);
        consumed := consumed + [head];
      }
      result := Normal(());
      assert consumed + [] == consumed;
    }
  }
}
