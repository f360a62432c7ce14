/** SearcherAwareReloader: on every new searcher, informs each SearcherAware
    field type of the schema, and each SearcherAware token filter factory
    of the field type's analyzer chains, in schema order. Objects are
    identified by ids; the `trace` of the reloader records which objects
    were informed, in order. */
module SearcherAwareReloader {
  import opened Java

  /** A token filter factory, and whether it is SearcherAware. */
  datatype Factory = Factory(id: nat, searcherAware: bool)

  /** An analyzer: a TokenizerChain with its token filter factories, or any
      other analyzer. The id is the object's identity. */
  datatype Analyzer = Chain(id: nat, factories: seq<Factory>) | Other(id: nat)

  datatype FieldType = FieldType(id: nat, searcherAware: bool, indexAnalyzer: Analyzer, queryAnalyzer: Analyzer)

  /** The new searcher, as far as the reloader looks at it: the field types
      of its schema, by name, in iteration order. */
  datatype Searcher = Searcher(fieldTypes: seq<(string, FieldType)>)

  /** One `inform(type, name, o, searcher)` call: the object and whether it
      is SearcherAware (only those are informed). */
  datatype Step = Step(id: nat, searcherAware: bool)

  /** The chains walked for a field type given the values of the two
      analyzer variables: the first when it is a chain, the second when it
      is a chain and a different object from the first. */
  function WalkedChains(indexAnalyzer: Analyzer, queryAnalyzer: Analyzer): seq<Analyzer> {
    (if indexAnalyzer.Chain? then [indexAnalyzer] else [])
    + (if indexAnalyzer.id != queryAnalyzer.id && queryAnalyzer.Chain? then [queryAnalyzer] else [])
  }

  /** The value the index analyzer variable takes: as written it is read
      with getQueryAnalyzer(); the intended reading is getIndexAnalyzer(). */
  function IndexAnalyzerVariable(ft: FieldType, intended: bool): Analyzer {
    if intended then ft.indexAnalyzer else ft.queryAnalyzer
  }

  function ChainSteps(factories: seq<Factory>): (steps: seq<Step>)
    ensures |steps| == |factories|
    ensures forall i :: 0 <= i < |factories| ==> steps[i] == Step(factories[i].id, factories[i].searcherAware)
  {
    seq(|factories|, i requires 0 <= i < |factories| => Step(factories[i].id, factories[i].searcherAware))
  }

  function AnalyzerSteps(analyzers: seq<Analyzer>): seq<Step>
    decreases |analyzers|
  {
    if analyzers == [] then []
    else (if analyzers[0].Chain? then ChainSteps(analyzers[0].factories) else []) + AnalyzerSteps(analyzers[1..])
  }

  /** The inform calls for one field type: the field type itself, then the
      factories of the walked chains. */
  function FieldTypeSteps(ft: FieldType, indexAnalyzer: Analyzer): seq<Step> {
    [Step(ft.id, ft.searcherAware)] + AnalyzerSteps(WalkedChains(indexAnalyzer, ft.queryAnalyzer))
  }

  /** The inform calls of a whole walk over the field types. */
  function WalkSteps(fieldTypes: seq<(string, FieldType)>, intended: bool): seq<Step>
    decreases |fieldTypes|
  {
    if fieldTypes == [] then []
    else
      var ft := fieldTypes[0].1;
      FieldTypeSteps(ft, IndexAnalyzerVariable(ft, intended)) + WalkSteps(fieldTypes[1..], intended)
  }

  /** One inform call: a SearcherAware object is informed (and recorded),
      and its IOException, for ids in `failing`, becomes an
      IllegalArgumentException; other objects are skipped. */
  function InformResult(trace: seq<nat>, step: Step, failing: set<nat>): (seq<nat>, Outcome<()>) {
    if !step.searcherAware then (trace, Normal(()))
    else (trace + [step.id],
          if step.id in failing then Thrown(IllegalArgument("Failed to inform about a new searcher.")) else Normal(()))
  }

  /** A sequence of inform calls; the first exception ends it. */
  function Run(trace: seq<nat>, steps: seq<Step>, failing: set<nat>): (seq<nat>, Outcome<()>)
    decreases |steps|
  {
    if steps == [] then (trace, Normal(()))
    else
      var r := InformResult(trace, steps[0], failing);
      if r.1.Thrown? then r else Run(r.0, steps[1..], failing)
  }

  /** The ids of the SearcherAware objects among the steps, in order. */
  function AwareIds(steps: seq<Step>): seq<nat>
    decreases |steps|
  {
    if steps == [] then [] else (if steps[0].searcherAware then [steps[0].id] else []) + AwareIds(steps[1..])
  }

  /** The position of the first step whose inform fails, or `|steps|`. */
  function FirstFailure(steps: seq<Step>, failing: set<nat>): (k: nat)
    ensures k <= |steps|
    ensures forall i :: 0 <= i < k ==> !(steps[i].searcherAware && steps[i].id in failing)
    ensures k < |steps| ==> steps[k].searcherAware && steps[k].id in failing
    decreases |steps|
  {
    if steps == [] || (steps[0].searcherAware && steps[0].id in failing) then 0
    else 1 + FirstFailure(steps[1..], failing)
  }

  /** Running two sequences of inform calls one after the other. */
  lemma {:induction false} RunAppend(trace: seq<nat>, a: seq<Step>, b: seq<Step>, failing: set<nat>)
    ensures Run(trace, a + b, failing) ==
              (var r := Run(trace, a, failing); if r.1.Thrown? then r else Run(r.0, b, failing))
    decreases |a|
  {
    if a != [] {
      assert (a + b)[0] == a[0];
      assert (a + b)[1..] == a[1..] + b;
      var r := InformResult(trace, a[0], failing);
      if !r.1.Thrown? {
        RunAppend(r.0, a[1..], b, failing);
      }
    } else {
      assert a + b == b;
    }
  }

  /** Every SearcherAware object up to and including the first failing one
      is informed, in order, and nothing after it; the walk raises exactly
      when some SearcherAware object fails. */
  lemma {:induction false} RunSpec(trace: seq<nat>, steps: seq<Step>, failing: set<nat>)
    ensures var k := FirstFailure(steps, failing);
            Run(trace, steps, failing) ==
              if k == |steps| then (trace + AwareIds(steps), Normal(()))
              else (trace + AwareIds(steps[..k + 1]), Thrown(IllegalArgument("Failed to inform about a new searcher.")))
    decreases |steps|
  {
    if steps != [] {
      var k := FirstFailure(steps, failing);
      var r := InformResult(trace, steps[0], failing);
      var head := if steps[0].searcherAware then [steps[0].id] else [];
      assert r.0 == trace + head;
      if k == 0 {
        assert steps[..1] == [steps[0]];
        assert AwareIds([steps[0]]) == [steps[0].id] by {
          assert [steps[0]][1..] == [];
        }
      } else {
        var rest := steps[1..];
        assert Run(trace, steps, failing) == Run(r.0, rest, failing);
        RunSpec(r.0, rest, failing);
        assert FirstFailure(rest, failing) == k - 1;
        if k == |steps| {
          assert AwareIds(steps) == head + AwareIds(rest);
          assert trace + head + AwareIds(rest) == trace + (head + AwareIds(rest));
        } else {
          var p := steps[..k + 1];
          assert p[0] == steps[0];
          assert p[1..] == rest[..k];
          assert AwareIds(p) == head + AwareIds(rest[..k]);
          assert trace + head + AwareIds(rest[..k]) == trace + (head + AwareIds(rest[..k]));
        }
      }
    } else {
      assert trace + [] == trace;
    }
  }

  /** The chain steps of the walked analyzers: the first analyzer's
      factories when it is a chain, then the second's when it is a chain
      and a different object. */
  lemma WalkedSteps(indexAnalyzer: Analyzer, queryAnalyzer: Analyzer)
    ensures AnalyzerSteps(WalkedChains(indexAnalyzer, queryAnalyzer)) ==
              (if indexAnalyzer.Chain? then ChainSteps(indexAnalyzer.factories) else [])
              + (if indexAnalyzer.id != queryAnalyzer.id && queryAnalyzer.Chain?
                 then ChainSteps(queryAnalyzer.factories) else [])
  {
    var i := indexAnalyzer;
    var q := queryAnalyzer;
    var walked := WalkedChains(i, q);
    var first: seq<Step> := if i.Chain? then ChainSteps(i.factories) else [];
    var second: seq<Step> := if i.id != q.id && q.Chain? then ChainSteps(q.factories) else [];
    assert [q][1..] == [] && [i][1..] == [];
    assert q.Chain? ==> AnalyzerSteps([q]) == ChainSteps(q.factories) + AnalyzerSteps([]);
    if i.Chain? && i.id != q.id && q.Chain? {
      assert walked == [i, q];
      assert walked[1..] == [q];
      assert AnalyzerSteps(walked) == first + AnalyzerSteps([q]);
      assert ChainSteps(q.factories) + [] == second;
    } else if i.Chain? {
      assert walked == [i];
      assert AnalyzerSteps(walked) == first + [];
      assert first + [] == first + second;
    } else if i.id != q.id && q.Chain? {
      assert walked == [q];
      assert AnalyzerSteps(walked) == second + [];
      assert second + [] == first + second;
    } else {
      assert walked == [];
    }
  }

  /** As written, the index analyzer is never walked: only the query
      analyzer's factories are informed, whatever the index analyzer is. */
  lemma AsWrittenIgnoresIndexAnalyzer(ft: FieldType)
    ensures FieldTypeSteps(ft, IndexAnalyzerVariable(ft, false)) ==
              [Step(ft.id, ft.searcherAware)]
              + (if ft.queryAnalyzer.Chain? then ChainSteps(ft.queryAnalyzer.factories) else [])
  {
    WalkedSteps(ft.queryAnalyzer, ft.queryAnalyzer);
  }

  /** As intended, the index chain is walked, then the query chain when it
      is a different object; an analyzer that is not a chain adds nothing. */
  lemma IntendedWalksBothChains(ft: FieldType)
    ensures FieldTypeSteps(ft, IndexAnalyzerVariable(ft, true)) ==
              [Step(ft.id, ft.searcherAware)]
              + (if ft.indexAnalyzer.Chain? then ChainSteps(ft.indexAnalyzer.factories) else [])
              + (if ft.indexAnalyzer.id != ft.queryAnalyzer.id && ft.queryAnalyzer.Chain?
                 then ChainSteps(ft.queryAnalyzer.factories) else [])
  {
    WalkedSteps(ft.indexAnalyzer, ft.queryAnalyzer);
  }

  /** The schema of the test with different analyzers: one field type that
      is not SearcherAware, whose index chain holds SearcherAware factory 2
      and whose query chain holds SearcherAware factory 4. */
  function DifferentAnalyzersSchema(): seq<(string, FieldType)> {
    [("test", FieldType(0, false, Chain(1, [Factory(2, true)]), Chain(3, [Factory(4, true)])))]
  }

  /** As written, only the query factory is informed; the index factory,
      which must be informed once, never is. Intended, both are informed
      once. */
  lemma DifferentAnalyzersCounterexample()
    ensures Run([], WalkSteps(DifferentAnalyzersSchema(), false), {}) == ([4], Normal(()))
    ensures Run([], WalkSteps(DifferentAnalyzersSchema(), true), {}) == ([2, 4], Normal(()))
  {
    var fts := DifferentAnalyzersSchema();
    var ft := fts[0].1;
    assert fts[1..] == [];
    AsWrittenIgnoresIndexAnalyzer(ft);
    IntendedWalksBothChains(ft);
    assert ChainSteps([Factory(2, true)]) == [Step(2, true)];
    assert ChainSteps([Factory(4, true)]) == [Step(4, true)];
    assert WalkSteps(fts, false) == [Step(0, false), Step(4, true)];
    assert WalkSteps(fts, true) == [Step(0, false), Step(2, true), Step(4, true)];
    RunSpec([], WalkSteps(fts, false), {});
    RunSpec([], WalkSteps(fts, true), {});
    assert AwareIds([Step(4, true)]) == [4] by { assert [Step(4, true)][1..] == []; }
    assert AwareIds([Step(0, false), Step(4, true)]) == [4] by {
      assert [Step(0, false), Step(4, true)][1..] == [Step(4, true)];
    }
    assert AwareIds([Step(2, true), Step(4, true)]) == [2, 4] by {
      assert [Step(2, true), Step(4, true)][1..] == [Step(4, true)];
    }
    assert AwareIds([Step(0, false), Step(2, true), Step(4, true)]) == [2, 4] by {
      assert [Step(0, false), Step(2, true), Step(4, true)][1..] == [Step(2, true), Step(4, true)];
    }
  }

  /** One chain used as both index and query analyzer is walked once, in
      both readings: each of its factories is informed once. */
  lemma SameAnalyzerOnce(ft: FieldType)
    requires ft.indexAnalyzer == ft.queryAnalyzer
    ensures FieldTypeSteps(ft, IndexAnalyzerVariable(ft, false)) == FieldTypeSteps(ft, IndexAnalyzerVariable(ft, true))
    ensures FieldTypeSteps(ft, IndexAnalyzerVariable(ft, true)) ==
              [Step(ft.id, ft.searcherAware)]
              + (if ft.queryAnalyzer.Chain? then ChainSteps(ft.queryAnalyzer.factories) else [])
  {
    AsWrittenIgnoresIndexAnalyzer(ft);
  }

  /** There is no visited set across field types: a SearcherAware factory
      in a chain that two field types share is informed once per field type. */
  lemma SharedFactoryInformedPerFieldType()
    ensures var chain := Chain(1, [Factory(2, true)]);
            var fts := [("a", FieldType(3, false, chain, chain)), ("b", FieldType(4, false, chain, chain))];
            Run([], WalkSteps(fts, false), {}) == ([2, 2], Normal(()))
  {
    var chain := Chain(1, [Factory(2, true)]);
    var fts := [("a", FieldType(3, false, chain, chain)), ("b", FieldType(4, false, chain, chain))];
    AsWrittenIgnoresIndexAnalyzer(fts[0].1);
    AsWrittenIgnoresIndexAnalyzer(fts[1].1);
    assert ChainSteps([Factory(2, true)]) == [Step(2, true)];
    assert fts[1..] == [fts[1]];
    assert fts[1..][1..] == [];
    assert WalkSteps(fts[1..], false) == [Step(4, false), Step(2, true)];
    var steps := [Step(3, false), Step(2, true), Step(4, false), Step(2, true)];
    assert WalkSteps(fts, false) == steps;
    RunSpec([], steps, {});
    assert steps[1..] == [Step(2, true), Step(4, false), Step(2, true)];
    assert steps[1..][1..] == [Step(4, false), Step(2, true)];
    assert steps[1..][1..][1..] == [Step(2, true)];
    assert steps[1..][1..][1..][1..] == [];
    assert AwareIds(steps[1..][1..][1..]) == [2];
    assert AwareIds(steps[1..][1..]) == [2];
    assert AwareIds(steps[1..]) == [2, 2];
    assert AwareIds(steps) == [2, 2];
  }

  class SearcherAwareReloader {
    /** The objects informed about new searchers so far, in order. */
    var trace: seq<nat>

    constructor ()
      ensures trace == []
    {
      trace := [];
    }

    /** `newSearcher(searcher, currentSearcher)` as written: the index
        analyzer variable is read with getQueryAnalyzer(). */
    method NewSearcher(searcher: Option<Searcher>, failing: set<nat>) returns (result: Outcome<()>)
      modifies this
      ensures searcher.None? ==> trace == old(trace) && result == Thrown(NullPointer)
      ensures searcher.Some? ==> (trace, result) == Run(old(trace), WalkSteps(searcher.value.fieldTypes, false), failing)
    {
      result := Walk(searcher, failing, false);
    }

    /** `newSearcher` with the index analyzer variable read with
        getIndexAnalyzer(), as the test with different analyzers expects. */
    method NewSearcherIntended(searcher: Option<Searcher>, failing: set<nat>) returns (result: Outcome<()>)
      modifies this
      ensures searcher.None? ==> trace == old(trace) && result == Thrown(NullPointer)
      ensures searcher.Some? ==> (trace, result) == Run(old(trace), WalkSteps(searcher.value.fieldTypes, true), failing)
    {
      result := Walk(searcher, failing, true);
    }

    /** The loop of `newSearcher` over the schema's field types. */
    method Walk(searcher: Option<Searcher>, failing: set<nat>, intended: bool) returns (result: Outcome<()>)
      modifies this
      ensures searcher.None? ==> trace == old(trace) && result == Thrown(NullPointer)
      ensures searcher.Some? ==> (trace, result) == Run(old(trace), WalkSteps(searcher.value.fieldTypes, intended), failing)
    {
      if searcher.None? {
        return Thrown(NullPointer);
      }
      var fieldTypes := searcher.value.fieldTypes;
      for i := 0 to |fieldTypes|
        invariant Run(old(trace), WalkSteps(fieldTypes, intended), failing)
                  == Run(trace, WalkSteps(fieldTypes[i..], intended), failing)
      {
        var (name, fieldType) := fieldTypes[i];
        assert fieldTypes[i..][1..] == fieldTypes[i + 1..];
        ghost var before := trace;
        var indexAnalyzer := if intended then fieldType.indexAnalyzer else fieldType.queryAnalyzer;
        result := InformFieldType(fieldType, indexAnalyzer, failing);
        RunAppend(before, FieldTypeSteps(fieldType, indexAnalyzer), WalkSteps(fieldTypes[i + 1..], intended), failing);
        if result.Thrown? {
          return;
        }
      }
      result := Normal(());
    }

    /** One iteration of `newSearcher`: informs the field type, then walks
        the analyzer held by the index analyzer variable when it is a chain,
        then the query analyzer when it is a different chain. */
    method InformFieldType(fieldType: FieldType, indexAnalyzer: Analyzer, failing: set<nat>) returns (result: Outcome<()>)
      modifies this
      ensures (trace, result) == Run(old(trace), FieldTypeSteps(fieldType, indexAnalyzer), failing)
    {
      var queryAnalyzer := fieldType.queryAnalyzer;
      var self := Step(fieldType.id, fieldType.searcherAware);
      var first := if indexAnalyzer.Chain? then ChainSteps(indexAnalyzer.factories) else [];
      var second := if indexAnalyzer.id != queryAnalyzer.id && queryAnalyzer.Chain? then ChainSteps(queryAnalyzer.factories) else [];
      WalkedSteps(indexAnalyzer, queryAnalyzer);
      ghost var t0 := trace;
      RunAppend(t0, [self], first + second, failing);
      assert [self][1..] == [];
      assert Run(t0, [self], failing) == InformResult(t0, self, failing);
      result := InformObject(self, failing);
      if result.Thrown? {
        return;
      }
      ghost var t1 := trace;
      RunAppend(t1, first, second, failing);
      if indexAnalyzer.Chain? {
        result := InformChain(indexAnalyzer.factories, failing);
        if result.Thrown? {
          return;
        }
      }
      assert (trace, result) == Run(t1, first, failing);
      ghost var t2 := trace;
      if indexAnalyzer.id != queryAnalyzer.id && queryAnalyzer.Chain? {
        result := InformChain(queryAnalyzer.factories, failing);
      } else {
        assert second == [];
        assert result.Normal?;
        assert result.value == ();
      }
      assert (trace, result) == Run(t2, second, failing);
    }

    /** `inform(name, tokenizers, searcher)`: every factory of the chain, in
        order. */
    method InformChain(factories: seq<Factory>, failing: set<nat>) returns (result: Outcome<()>)
      modifies this
      ensures (trace, result) == Run(old(trace), ChainSteps(factories), failing)
    {
      var steps := ChainSteps(factories);
      for i := 0 to |factories|
        invariant Run(old(trace), steps, failing) == Run(trace, steps[i..], failing)
      {
        assert steps[i..][1..] == steps[i + 1..];
        result := InformObject(Step(factories[i].id, factories[i].searcherAware), failing);
        if result.Thrown? {
          return;
        }
      }
      result := Normal(());
    }

    /** `inform(type, name, o, searcher)`: informs a SearcherAware object;
        its IOException becomes IllegalArgumentException. */
    method InformObject(o: Step, failing: set<nat>) returns (result: Outcome<()>)
      modifies this
      ensures (trace, result) == InformResult(old(trace), o, failing)
    {
      result := Normal(());
      if o.searcherAware {
        trace := trace + [o.id];
        if o.id in failing {
          result := Thrown(IllegalArgument("Failed to inform about a new searcher."));
        }
      }
    }
  }
}
