/** What the two shard-handler factories share: a bean definition is a
    NamedList (an ordered list of name/value entries, names may repeat),
    a bean is created by reflection from the class named in its `class`
    entry and configured with the remaining entries as properties.
    Class loading and BeanUtils property setting are oracles. */
module Beans {
  import opened Java

  /** A bean definition: the entries of a NamedList, in order. */
  type Definition = seq<(string, Value)>

  /** A bean: the class it was instantiated from and the properties set on
      it, in the order they were set. */
  datatype Bean = Bean(className: string, properties: seq<(string, Value)>)

  /** The reflection the factories rely on: whether `Class.forName(c)
      .newInstance()` succeeds, whether the loaded class is a
      javax.sql.DataSource, and whether BeanUtils `setProperty(bean, name,
      value)` succeeds on an instance of a class. */
  datatype Reflection = Reflection(
    instantiable: string -> bool,
    isDataSource: string -> bool,
    settable: (string, string, Value) -> bool)

  /** `NamedList.remove(name)`: removes the FIRST entry with that name and
      returns its value, or null when there is none. */
  function RemoveFirst(d: Definition, name: string): (r: (Option<Value>, Definition))
    ensures r.0.None? <==> (forall i :: 0 <= i < |d| ==> d[i].0 != name)
    ensures r.0.None? ==> r.1 == d
    ensures r.0.Some? ==> |r.1| == |d| - 1 && r.0.value == d[IndexOf(d, name)].1
    ensures r.0.Some? ==> r.1[..IndexOf(d, name)] == d[..IndexOf(d, name)]
    ensures r.0.Some? ==> r.1[IndexOf(d, name)..] == d[IndexOf(d, name) + 1..]
  {
    var i := IndexOf(d, name);
    if i == |d| then (None, d) else (Some(d[i].1), d[..i] + d[i + 1..])
  }

  /** Position of the first entry called `name`. */
  function IndexOf(d: Definition, name: string): (i: nat)
    ensures i <= |d|
    ensures forall j :: 0 <= j < i ==> d[j].0 != name
    ensures i < |d| ==> d[i].0 == name
  {
    if d == [] || d[0].0 == name then 0 else 1 + IndexOf(d[1..], name)
  }

  /** `NamedList.get(name)`: the value of the first entry with that name. */
  function GetFirst(d: Definition, name: string): (r: Option<Value>)
    ensures r == RemoveFirst(d, name).0
  {
    if d == [] then None else if d[0].0 == name then Some(d[0].1) else GetFirst(d[1..], name)
  }

  /** At most one entry of the definition is called `name`. */
  predicate AtMostOnce(d: Definition, name: string) {
    forall i, j :: 0 <= i < j < |d| && d[i].0 == name ==> d[j].0 != name
  }

  /** No entry of the definition is called `name`. */
  predicate Absent(d: Definition, name: string) {
    forall i :: 0 <= i < |d| ==> d[i].0 != name
  }

  /** Removing the only entry of a name leaves none of that name. */
  lemma RemoveFirstLeavesNone(d: Definition, name: string)
    requires AtMostOnce(d, name)
    ensures Absent(RemoveFirst(d, name).1, name)
  {
    var rest := RemoveFirst(d, name).1;
    if RemoveFirst(d, name).0.Some? {
      var k := IndexOf(d, name);
      forall i | 0 <= i < |rest| ensures rest[i].0 != name {
        if i < k {
          assert rest[i] == rest[..k][i] == d[..k][i];
        } else {
          assert rest[i] == rest[k..][i - k] == d[k + 1..][i - k];
        }
      }
    }
  }

  /** Removing an entry of one name keeps another name absent, or at most
      once. */
  lemma RemoveFirstKeepsOther(d: Definition, name: string, other: string)
    ensures Absent(d, other) ==> Absent(RemoveFirst(d, name).1, other)
    ensures AtMostOnce(d, other) ==> AtMostOnce(RemoveFirst(d, name).1, other)
  {
    var rest := RemoveFirst(d, name).1;
    if RemoveFirst(d, name).0.Some? {
      var k := IndexOf(d, name);
      forall i | 0 <= i < |rest| ensures rest[i] == d[if i < k then i else i + 1] {
        if i < k {
          assert rest[i] == rest[..k][i] == d[..k][i];
        } else {
          assert rest[i] == rest[k..][i - k] == d[k + 1..][i - k];
        }
      }
    }
  }

  /** How instantiating the class named by a removed `class` entry ends. */
  datatype Instantiation =
    | Instantiated(bean: Bean)
    | NotInstantiable   // Class.forName/newInstance failed; null names included
    | NotAString        // the `(String)` cast failed, outside any try block

  /** `(String) remove("class")` followed by `Class.forName(..).newInstance()`. */
  function Instantiate(r: Reflection, classEntry: Option<Value>): (i: Instantiation)
    ensures i.Instantiated? <==> classEntry.Some? && classEntry.value.Str? && r.instantiable(classEntry.value.s)
    ensures i.Instantiated? ==> i.bean == Bean(classEntry.value.s, [])
    ensures i.NotAString? <==> classEntry.Some? && !classEntry.value.Str? && !classEntry.value.Null?
  {
    match classEntry
    case None => NotInstantiable
    case Some(Null) => NotInstantiable
    case Some(Str(c)) => if r.instantiable(c) then Instantiated(Bean(c, [])) else NotInstantiable
    case Some(_) => NotAString
  }

  /** Sets the properties on the bean one after the other, in order, and
      stops at the first that BeanUtils rejects (None). */
  function Configure(r: Reflection, bean: Bean, props: seq<(string, Value)>): Option<Bean>
    decreases |props|
  {
    if props == [] then Some(bean)
    else if !r.settable(bean.className, props[0].0, props[0].1) then None
    else Configure(r, Bean(bean.className, bean.properties + [props[0]]), props[1..])
  }

  /** Every property of the list is accepted on instances of class `c`. */
  predicate AllSettable(r: Reflection, c: string, props: seq<(string, Value)>) {
    forall i :: 0 <= i < |props| ==> r.settable(c, props[i].0, props[i].1)
  }

  /** Configuring succeeds exactly when every property is accepted, and then
      the bean carries all of them after its earlier ones, in list order;
      the class never changes. */
  lemma {:induction false} ConfigureSpec(r: Reflection, bean: Bean, props: seq<(string, Value)>)
    ensures Configure(r, bean, props).Some? <==> AllSettable(r, bean.className, props)
    ensures Configure(r, bean, props).Some? ==>
              Configure(r, bean, props).value == Bean(bean.className, bean.properties + props)
    decreases |props|
  {
    if props != [] {
      var next := Bean(bean.className, bean.properties + [props[0]]);
      ConfigureSpec(r, next, props[1..]);
      assert next.properties + props[1..] == bean.properties + props;
      if r.settable(bean.className, props[0].0, props[0].1) {
        if AllSettable(r, bean.className, props[1..]) {
          forall i | 0 <= i < |props| ensures r.settable(bean.className, props[i].0, props[i].1) {
            if i > 0 { assert props[i] == props[1..][i - 1]; }
          }
        } else {
          var i :| 0 <= i < |props[1..]| && !r.settable(bean.className, props[1..][i].0, props[1..][i].1);
          assert props[i + 1] == props[1..][i];
        }
      }
    }
  }

  /** Property setting stops at the first rejected property: with a prefix
      that is accepted and an entry that is rejected, nothing after it is
      looked at and configuration fails. */
  lemma {:induction false} ConfigureStopsAtFirstFailure(r: Reflection, bean: Bean, ok: seq<(string, Value)>,
                                                       bad: (string, Value), later: seq<(string, Value)>)
    requires AllSettable(r, bean.className, ok)
    requires !r.settable(bean.className, bad.0, bad.1)
    ensures Configure(r, bean, ok + [bad] + later) == None
    decreases |ok|
  {
    if ok == [] {
      assert (ok + [bad] + later)[0] == bad;
    } else {
      var next := Bean(bean.className, bean.properties + [ok[0]]);
      assert (ok + [bad] + later)[0] == ok[0];
      assert (ok + [bad] + later)[1..] == ok[1..] + [bad] + later;
      assert AllSettable(r, bean.className, ok[1..]) by {
        forall i | 0 <= i < |ok[1..]| ensures r.settable(bean.className, ok[1..][i].0, ok[1..][i].1) {
          assert ok[1..][i] == ok[i + 1];
        }
      }
      ConfigureStopsAtFirstFailure(r, next, ok[1..], bad, later);
    }
  }
}
