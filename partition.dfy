/**
  Work partitioning of a run request (ParallelNoIsolationProxyExecutionManager.StartTestRun):
  in specific-tests mode the tests are grouped by source in first-seen order
  (a Dictionary filled by a foreach and copied with ToArray); in sources mode
  every source is one unit.
 */
module Partition {
  import opened ObjectModel

  /** One dispatchable unit: a whole source, or a group of tests of one source. */
  datatype WorkUnit = SourceUnit(source: string) | TestGroup(tests: seq<TestCase>)

  /** The distinct sources of `tests`, in the order in which each first occurs. */
  function DistinctSources(tests: seq<TestCase>): seq<string>
  {
    if tests == [] then []
    else
      var d := DistinctSources(tests[..|tests| - 1]);
      if tests[|tests| - 1].source in d then d else d + [tests[|tests| - 1].source]
  }

  /** The tests of `tests` whose source is `s`, in input order. */
  function TestsOf(tests: seq<TestCase>, s: string): seq<TestCase>
  {
    if tests == [] then []
    else
      TestsOf(tests[..|tests| - 1], s)
      + (if tests[|tests| - 1].source == s then [tests[|tests| - 1]] else [])
  }

  function GroupsOf(tests: seq<TestCase>, sources: seq<string>): seq<seq<TestCase>>
  {
    if sources == [] then [] else [TestsOf(tests, sources[0])] + GroupsOf(tests, sources[1..])
  }

  /** The reference partition: one group per distinct source, in first-seen order. */
  function GroupsBySource(tests: seq<TestCase>): seq<seq<TestCase>>
  {
    GroupsOf(tests, DistinctSources(tests))
  }

  function Flatten(groups: seq<seq<TestCase>>): seq<TestCase>
  {
    if groups == [] then [] else groups[0] + Flatten(groups[1..])
  }

  predicate NoDuplicates(ss: seq<string>)
  {
    forall i, j :: 0 <= i < j < |ss| ==> ss[i] != ss[j]
  }

  /** The work units of a run request, in enumeration order. */
  function WorkUnits(c: RunCriteria): seq<WorkUnit>
  {
    match c.payload
    case Sources(ss) => seq(|ss|, i requires 0 <= i < |ss| => SourceUnit(ss[i]))
    case Tests(ts) =>
      var gs := GroupsBySource(ts);
      seq(|gs|, i requires 0 <= i < |gs| => TestGroup(gs[i]))
  }

  lemma {:induction false} DistinctSourcesSpec(tests: seq<TestCase>)
    ensures NoDuplicates(DistinctSources(tests))
    ensures forall s :: s in DistinctSources(tests) <==> exists i :: 0 <= i < |tests| && tests[i].source == s
  {
    if tests != [] {
      var p := tests[..|tests| - 1];
      DistinctSourcesSpec(p);
      forall s ensures s in DistinctSources(tests) <==> exists i :: 0 <= i < |tests| && tests[i].source == s
      {
        if s in DistinctSources(tests) && s != tests[|tests| - 1].source {
          var i :| 0 <= i < |p| && p[i].source == s;
          assert tests[i].source == s;
        }
        if exists i :: 0 <= i < |tests| && tests[i].source == s {
          var i :| 0 <= i < |tests| && tests[i].source == s;
          if i < |p| { assert p[i].source == s; }
        }
      }
    }
  }

  lemma {:induction false} TestsOfSpec(tests: seq<TestCase>, s: string)
    ensures forall t :: t in TestsOf(tests, s) ==> t in tests && t.source == s
    ensures TestsOf(tests, s) != [] <==> s in DistinctSources(tests)
  {
    if tests != [] {
      var p := tests[..|tests| - 1];
      TestsOfSpec(p, s);
      forall t | t in TestsOf(tests, s) ensures t in tests
      {
        if t in TestsOf(p, s) { assert t in p; }
      }
    }
  }

  lemma {:induction false} GroupsOfIndex(tests: seq<TestCase>, sources: seq<string>)
    ensures |GroupsOf(tests, sources)| == |sources|
    ensures forall j :: 0 <= j < |sources| ==> GroupsOf(tests, sources)[j] == TestsOf(tests, sources[j])
  {
    if sources != [] {
      GroupsOfIndex(tests, sources[1..]);
    }
  }

  lemma {:induction false} GroupsOfSnoc(tests: seq<TestCase>, sources: seq<string>, x: string)
    ensures GroupsOf(tests, sources + [x]) == GroupsOf(tests, sources) + [TestsOf(tests, x)]
  {
    if sources != [] {
      assert (sources + [x])[1..] == sources[1..] + [x];
      GroupsOfSnoc(tests, sources[1..], x);
    } else {
      assert sources + [x] == [x];
    }
  }

  lemma {:induction false} FlattenAppend(a: seq<seq<TestCase>>, b: seq<seq<TestCase>>)
    ensures Flatten(a + b) == Flatten(a) + Flatten(b)
  {
    if a == [] {
      assert a + b == b;
    } else {
      assert (a + b)[1..] == a[1..] + b;
      FlattenAppend(a[1..], b);
    }
  }

  /** Adding one more test to the input adds it to the group of its source, if that group exists. */
  lemma {:induction false} GroupsOfMultisetSnoc(p: seq<TestCase>, t: TestCase, sources: seq<string>)
    requires NoDuplicates(sources)
    ensures multiset(Flatten(GroupsOf(p + [t], sources)))
         == multiset(Flatten(GroupsOf(p, sources))) + (if t.source in sources then multiset{t} else multiset{})
  {
    if sources != [] {
      var ts := p + [t];
      assert ts[..|ts| - 1] == p;
      GroupsOfMultisetSnoc(p, t, sources[1..]);
      assert sources[0] !in sources[1..] by {
        forall j | 0 <= j < |sources[1..]| ensures sources[1..][j] != sources[0] {
          assert sources[1..][j] == sources[j + 1];
        }
      }
      assert Flatten(GroupsOf(ts, sources)) == TestsOf(ts, sources[0]) + Flatten(GroupsOf(ts, sources[1..]));
      assert Flatten(GroupsOf(p, sources)) == TestsOf(p, sources[0]) + Flatten(GroupsOf(p, sources[1..]));
    }
  }

  /** The groups together are a permutation of the input tests. */
  lemma {:induction false} GroupsArePermutation(tests: seq<TestCase>)
    ensures multiset(Flatten(GroupsBySource(tests))) == multiset(tests)
  {
    if tests != [] {
      var p := tests[..|tests| - 1];
      var t := tests[|tests| - 1];
      assert tests == p + [t];
      GroupsArePermutation(p);
      var d := DistinctSources(p);
      DistinctSourcesSpec(p);
      GroupsOfMultisetSnoc(p, t, d);
      if t.source !in d {
        GroupsOfSnoc(tests, d, t.source);
        FlattenAppend(GroupsOf(tests, d), [TestsOf(tests, t.source)]);
        TestsOfSpec(p, t.source);
        assert TestsOf(tests, t.source) == [t];
        assert Flatten([TestsOf(tests, t.source)]) == [t];
      }
    }
  }

  /** Every group is non-empty, all of its tests come from one source, and distinct groups have distinct sources. */
  lemma GroupsAreHomogeneous(tests: seq<TestCase>)
    ensures |GroupsBySource(tests)| == |DistinctSources(tests)|
    ensures forall j :: 0 <= j < |GroupsBySource(tests)| ==>
      GroupsBySource(tests)[j] != [] &&
      forall t :: t in GroupsBySource(tests)[j] ==> t in tests && t.source == DistinctSources(tests)[j]
    ensures forall i, j, t :: 0 <= i < j < |GroupsBySource(tests)| && t in GroupsBySource(tests)[i] ==>
      t !in GroupsBySource(tests)[j]
  {
    var d := DistinctSources(tests);
    GroupsOfIndex(tests, d);
    DistinctSourcesSpec(tests);
    forall j | 0 <= j < |d| ensures TestsOf(tests, d[j]) != [] && forall t :: t in TestsOf(tests, d[j]) ==> t in tests && t.source == d[j]
    {
      TestsOfSpec(tests, d[j]);
    }
  }

  /** The foreach that fills the source-indexed dictionary, then the ToArray copy of its values. */
  method GroupTestsBySource(tests: seq<TestCase>) returns (groups: seq<seq<TestCase>>)
    ensures groups == GroupsBySource(tests)
  {
    var bySource: map<string, seq<TestCase>> := map[];
    var keys: seq<string> := [];  // the dictionary's insertion order, which its Values follow
    var i := 0;
    while i < |tests|
      invariant 0 <= i <= |tests|
      invariant keys == DistinctSources(tests[..i])
      invariant forall s :: s in bySource <==> s in keys
      invariant forall s :: s in bySource ==> bySource[s] == TestsOf(tests[..i], s)
    {
      var test := tests[i];
      assert tests[..i + 1][..i] == tests[..i];
      assert tests[..i + 1][i] == test;
      forall s ensures TestsOf(tests[..i + 1], s) == TestsOf(tests[..i], s) + (if test.source == s then [test] else []) {
      }
      if test.source !in bySource {
        TestsOfSpec(tests[..i], test.source);
        bySource := bySource[test.source := []];
        keys := keys + [test.source];
      }
      bySource := bySource[test.source := bySource[test.source] + [test]];
      i := i + 1;
    }
    assert tests[..i] == tests;
    groups := seq(|keys|, j requires 0 <= j < |keys| => bySource[keys[j]]);
    GroupsOfIndex(tests, keys);
  }
}
