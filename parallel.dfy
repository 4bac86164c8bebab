/**
  The parallel dispatch rule of ParallelNoIsolationProxyExecutionManager.

  A run request is split into work units (Partition), a cursor walks over them
  and each of `parallelLevel` slots is offered one unit; every unit taken gets
  a fresh worker that is registered with its own events handler, initialized
  and started. The asynchronous start is a sequential event here: `faults(w)`
  says whether worker w's start throws, in which case an aborted completion is
  sent to the handler registered for w. Everything the manager does to the
  outside world is recorded, in order, in `events`.
 */
module ParallelExecution {
  import opened Sequences
  import opened ObjectModel
  import opened Partition

  type WorkerId = nat

  /** ParallelRunEventsHandler: it wraps the worker, the caller's handler and the run's aggregator. */
  datatype RunEventsHandler = RunEventsHandler(worker: WorkerId, caller: nat, aggregator: nat)

  datatype Event =
    | Registered(worker: WorkerId, handler: RunEventsHandler)
    | Initialized(worker: WorkerId)
      /** runStartedClients was incremented, then the worker's StartTestRun was called. */
    | Started(worker: WorkerId, source: Option<string>, criteria: RunCriteria, handler: RunEventsHandler)
    | Completed(handler: RunEventsHandler, args: RunCompleteArgs, lastChunk: Option<RunStatistics>,
                runContextAttachments: Option<seq<AttachmentSet>>, executorUris: Option<seq<string>>)
    | Closed(worker: WorkerId, failed: bool)

  /** What one run shares between all of its activations. */
  datatype RunContext = RunContext(actual: RunCriteria, caller: nat, aggregator: nat)

  function Min(a: int, b: int): int { if a <= b then a else b }

  /** The completion synthesized when a worker's start faults: aborted, not canceled, nothing else. */
  const AbortedArgs := RunCompleteArgs(None, false, true, None, [], 0)

  function AbortCompletion(h: RunEventsHandler): Event
  {
    Completed(h, AbortedArgs, None, None, None)
  }

  /** The criteria a worker receives for one unit. */
  function UnitCriteria(actual: RunCriteria, unit: WorkUnit): RunCriteria
  {
    match unit
    case SourceUnit(s) =>
      RunCriteria(Sources([s]), actual.testCaseFilter, actual.frequencyOfRunStatsChangeEvent, actual.keepAlive,
                  actual.testRunSettings, actual.runStatsChangeEventTimeout, actual.testHostLauncher)
    case TestGroup(g) =>
      RunCriteria(Tests(g), None, actual.frequencyOfRunStatsChangeEvent, actual.keepAlive,
                  actual.testRunSettings, actual.runStatsChangeEventTimeout, actual.testHostLauncher)
  }

  /** The source a worker is created for (`nextSetOfTests?.FirstOrDefault()?.Source` in tests mode). */
  function UnitSource(unit: WorkUnit): Option<string>
  {
    match unit
    case SourceUnit(s) => Some(s)
    case TestGroup(g) => if g == [] then None else Some(g[0].source)
  }

  /** The events of one activation that got unit `u` for the new worker `w`. */
  function StepEvents(w: WorkerId, u: WorkUnit, ctx: RunContext, fault: bool): seq<Event>
  {
    var h := RunEventsHandler(w, ctx.caller, ctx.aggregator);
    [Registered(w, h), Initialized(w), Started(w, UnitSource(u), UnitCriteria(ctx.actual, u), h)]
    + (if fault then [AbortCompletion(h)] else [])
  }

  /** The events of handing out `us` in order to fresh workers numbered from `w0`. */
  function Dispatch(w0: WorkerId, us: seq<WorkUnit>, ctx: RunContext, faults: WorkerId -> bool): seq<Event>
    decreases |us|
  {
    if us == [] then [] else StepEvents(w0, us[0], ctx, faults(w0)) + Dispatch(w0 + 1, us[1..], ctx, faults)
  }

  /** The manager map entries the dispatch of `n` units from worker `w0` adds. */
  function Registrations(w0: WorkerId, n: nat, ctx: RunContext): map<WorkerId, RunEventsHandler>
  {
    map w: WorkerId | w0 <= w < w0 + n :: RunEventsHandler(w, ctx.caller, ctx.aggregator)
  }

  /** The (worker, criteria) pairs of the Started events, in order. */
  function Starts(evs: seq<Event>): seq<(WorkerId, RunCriteria)>
  {
    if evs == [] then []
    else (if evs[0].Started? then [(evs[0].worker, evs[0].criteria)] else []) + Starts(evs[1..])
  }

  /** One start per unit, in order: the i-th with worker w0 + i and the i-th unit's criteria. */
  function StartedPairs(w0: WorkerId, us: seq<WorkUnit>, actual: RunCriteria): seq<(WorkerId, RunCriteria)>
  {
    seq(|us|, i requires 0 <= i < |us| => (w0 + i, UnitCriteria(actual, us[i])))
  }

  /** The Completed events, in order. */
  function Completions(evs: seq<Event>): seq<Event>
  {
    if evs == [] then [] else (if evs[0].Completed? then [evs[0]] else []) + Completions(evs[1..])
  }

  /** Every worker is registered, with the handler it is started with, before it is initialized and started. */
  ghost predicate RegisteredFirst(evs: seq<Event>)
  {
    forall j :: 0 <= j < |evs| && evs[j].Started? ==>
      exists k, m :: 0 <= k < m < j && evs[k] == Registered(evs[j].worker, evs[j].handler)
                     && evs[m] == Initialized(evs[j].worker)
  }

  lemma {:induction false} StartsAppend(a: seq<Event>, b: seq<Event>)
    ensures Starts(a + b) == Starts(a) + Starts(b)
  {
    if a == [] {
      EmptyConcat(a, b);
    } else {
      DropConcat(a, b);
      StartsAppend(a[1..], b);
      ConcatAssoc((if a[0].Started? then [(a[0].worker, a[0].criteria)] else []), Starts(a[1..]), Starts(b));
    }
  }

  lemma {:induction false} CompletionsAppend(a: seq<Event>, b: seq<Event>)
    ensures Completions(a + b) == Completions(a) + Completions(b)
  {
    if a == [] {
      EmptyConcat(a, b);
    } else {
      DropConcat(a, b);
      CompletionsAppend(a[1..], b);
      ConcatAssoc((if a[0].Completed? then [a[0]] else []), Completions(a[1..]), Completions(b));
    }
  }

  lemma {:induction false} DispatchAppend(w0: WorkerId, a: seq<WorkUnit>, b: seq<WorkUnit>, ctx: RunContext, faults: WorkerId -> bool)
    ensures Dispatch(w0, a + b, ctx, faults) == Dispatch(w0, a, ctx, faults) + Dispatch(w0 + |a|, b, ctx, faults)
    decreases |a|
  {
    if a == [] {
      assert a + b == b;
    } else {
      assert (a + b)[0] == a[0];
      assert (a + b)[1..] == a[1..] + b;
      DispatchAppend(w0 + 1, a[1..], b, ctx, faults);
    }
  }

  /** Dispatching one more unit of the slice `us[c0..c]` appends that unit's activation. */
  lemma DispatchSliceStep(w0: WorkerId, us: seq<WorkUnit>, c0: nat, c: nat, ctx: RunContext, faults: WorkerId -> bool)
    requires c0 <= c < |us|
    ensures Dispatch(w0, us[c0..c + 1], ctx, faults)
         == Dispatch(w0, us[c0..c], ctx, faults) + StepEvents(w0 + (c - c0), us[c], ctx, faults(w0 + (c - c0)))
  {
    SliceSnoc(us, c0, c);
    DispatchAppend(w0, us[c0..c], [us[c]], ctx, faults);
    assert [us[c]][1..] == [];
  }

  lemma DispatchPrefixStep(w0: WorkerId, us: seq<WorkUnit>, c: nat, ctx: RunContext, faults: WorkerId -> bool)
    requires c < |us|
    ensures Dispatch(w0, us[..c + 1], ctx, faults) == Dispatch(w0, us[..c], ctx, faults) + StepEvents(w0 + c, us[c], ctx, faults(w0 + c))
  {
    TakeSnoc(us, c);
    DispatchAppend(w0, us[..c], [us[c]], ctx, faults);
    assert Dispatch(w0 + c, [us[c]], ctx, faults) == StepEvents(w0 + c, us[c], ctx, faults(w0 + c)) + Dispatch(w0 + c + 1, [], ctx, faults);
  }

  /**
    The i-th worker started is worker w0 + i and it runs exactly the i-th unit:
    as many starts as units, no unit handed out twice or skipped, in order.
   */
  lemma {:induction false} DispatchStarts(w0: WorkerId, us: seq<WorkUnit>, ctx: RunContext, faults: WorkerId -> bool)
    ensures Starts(Dispatch(w0, us, ctx, faults))
         == StartedPairs(w0, us, ctx.actual)
    decreases |us|
  {
    if us != [] {
      StartsAppend(StepEvents(w0, us[0], ctx, faults(w0)), Dispatch(w0 + 1, us[1..], ctx, faults));
      StepStarts(w0, us[0], ctx, faults(w0));
      DispatchStarts(w0 + 1, us[1..], ctx, faults);
      StartedPairsCons(w0, us, ctx.actual);
    }
  }

  /** An activation starts exactly its own worker, with its unit's criteria. */
  lemma StepStarts(w: WorkerId, u: WorkUnit, ctx: RunContext, fault: bool)
    ensures Starts(StepEvents(w, u, ctx, fault)) == [(w, UnitCriteria(ctx.actual, u))]
  {
    var h := RunEventsHandler(w, ctx.caller, ctx.aggregator);
    var pre := [Registered(w, h), Initialized(w), Started(w, UnitSource(u), UnitCriteria(ctx.actual, u), h)];
    var post: seq<Event> := if fault then [AbortCompletion(h)] else [];
    StartsAppend(pre, post);
    assert pre[1..][1..][1..] == [];
    assert Starts(pre[1..][1..]) == [(w, UnitCriteria(ctx.actual, u))];
    assert Starts(pre[1..]) == Starts(pre[1..][1..]);
    assert Starts(post) == [];
  }

  lemma StartedPairsCons(w0: WorkerId, us: seq<WorkUnit>, actual: RunCriteria)
    requires us != []
    ensures StartedPairs(w0, us, actual) == [(w0, UnitCriteria(actual, us[0]))] + StartedPairs(w0 + 1, us[1..], actual)
  {
    var l := StartedPairs(w0, us, actual);
    var r := [(w0, UnitCriteria(actual, us[0]))] + StartedPairs(w0 + 1, us[1..], actual);
    assert |l| == |r|;
    forall i | 0 <= i < |l| ensures l[i] == r[i] {
      if i > 0 { assert us[1..][i - 1] == us[i]; }
    }
  }

  /** The only completion an activation synthesizes is the aborted one, and only when the start faults. */
  lemma StepCompletions(w: WorkerId, u: WorkUnit, ctx: RunContext, fault: bool)
    ensures Completions(StepEvents(w, u, ctx, fault))
         == if fault then [AbortCompletion(RunEventsHandler(w, ctx.caller, ctx.aggregator))] else []
  {
    var h := RunEventsHandler(w, ctx.caller, ctx.aggregator);
    var pre := [Registered(w, h), Initialized(w), Started(w, UnitSource(u), UnitCriteria(ctx.actual, u), h)];
    var post: seq<Event> := if fault then [AbortCompletion(h)] else [];
    CompletionsAppend(pre, post);
    assert pre[1..][1..][1..] == [];
    assert Completions(pre[1..][1..]) == [];
    assert Completions(pre[1..]) == [];
    assert Completions(post) == post;
  }

  lemma DispatchCompletionsUnfold(w0: WorkerId, us: seq<WorkUnit>, ctx: RunContext, faults: WorkerId -> bool)
    requires us != []
    ensures Completions(Dispatch(w0, us, ctx, faults))
         == (if faults(w0) then [AbortCompletion(RunEventsHandler(w0, ctx.caller, ctx.aggregator))] else [])
            + Completions(Dispatch(w0 + 1, us[1..], ctx, faults))
  {
    CompletionsAppend(StepEvents(w0, us[0], ctx, faults(w0)), Dispatch(w0 + 1, us[1..], ctx, faults));
    StepCompletions(w0, us[0], ctx, faults(w0));
  }

  /**
    Every completion the dispatcher synthesizes is the aborted completion, sent to
    the handler registered for a dispatched worker whose start faulted.
   */
  lemma {:induction false} DispatchCompletionsAreAborts(w0: WorkerId, us: seq<WorkUnit>, ctx: RunContext, faults: WorkerId -> bool)
    ensures forall e :: e in Completions(Dispatch(w0, us, ctx, faults)) ==>
      && e.Completed?
      && w0 <= e.handler.worker < w0 + |us| && faults(e.handler.worker)
      && e == AbortCompletion(RunEventsHandler(e.handler.worker, ctx.caller, ctx.aggregator))
    decreases |us|
  {
    if us != [] {
      DispatchCompletionsUnfold(w0, us, ctx, faults);
      DispatchCompletionsAreAborts(w0 + 1, us[1..], ctx, faults);
    }
  }

  /** A dispatched worker whose start faults gets exactly one completion; one whose start succeeds gets none. */
  lemma {:induction false} DispatchCompletionsCount(w0: WorkerId, us: seq<WorkUnit>, ctx: RunContext, faults: WorkerId -> bool)
    ensures forall w: WorkerId :: w0 <= w < w0 + |us| ==>
      multiset(Completions(Dispatch(w0, us, ctx, faults)))[AbortCompletion(RunEventsHandler(w, ctx.caller, ctx.aggregator))]
        == if faults(w) then 1 else 0
    decreases |us|
  {
    if us != [] {
      var rest := Completions(Dispatch(w0 + 1, us[1..], ctx, faults));
      DispatchCompletionsUnfold(w0, us, ctx, faults);
      DispatchCompletionsCount(w0 + 1, us[1..], ctx, faults);
      DispatchCompletionsAreAborts(w0 + 1, us[1..], ctx, faults);
      var e0 := AbortCompletion(RunEventsHandler(w0, ctx.caller, ctx.aggregator));
      assert e0 !in rest;
      assert multiset(rest)[e0] == 0;
    }
  }

  lemma {:induction false} RegisteredFirstAppend(a: seq<Event>, b: seq<Event>)
    requires RegisteredFirst(a) && RegisteredFirst(b)
    ensures RegisteredFirst(a + b)
  {
    var ab := a + b;
    forall j | 0 <= j < |ab| && ab[j].Started?
      ensures exists k, m :: 0 <= k < m < j && ab[k] == Registered(ab[j].worker, ab[j].handler)
                             && ab[m] == Initialized(ab[j].worker)
    {
      if j < |a| {
        assert a[j] == ab[j];
        var k, m :| 0 <= k < m < j && a[k] == Registered(a[j].worker, a[j].handler) && a[m] == Initialized(a[j].worker);
        assert ab[k] == a[k] && ab[m] == a[m];
      } else {
        assert b[j - |a|] == ab[j];
        var k, m :| 0 <= k < m < j - |a| && b[k] == Registered(b[j - |a|].worker, b[j - |a|].handler)
                                          && b[m] == Initialized(b[j - |a|].worker);
        assert ab[k + |a|] == b[k] && ab[m + |a|] == b[m];
      }
    }
  }

  lemma {:induction false} DispatchRegistersFirst(w0: WorkerId, us: seq<WorkUnit>, ctx: RunContext, faults: WorkerId -> bool)
    ensures RegisteredFirst(Dispatch(w0, us, ctx, faults))
    decreases |us|
  {
    if us != [] {
      var s := StepEvents(w0, us[0], ctx, faults(w0));
      assert RegisteredFirst(s) by {
        forall j | 0 <= j < |s| && s[j].Started?
          ensures exists k, m :: 0 <= k < m < j && s[k] == Registered(s[j].worker, s[j].handler)
                                 && s[m] == Initialized(s[j].worker)
        {
          assert j == 2;
          assert s[0] == Registered(s[j].worker, s[j].handler) && s[1] == Initialized(s[j].worker);
        }
      }
      DispatchRegistersFirst(w0 + 1, us[1..], ctx, faults);
      RegisteredFirstAppend(s, Dispatch(w0 + 1, us[1..], ctx, faults));
    }
  }

  /**
    Every worker's criteria keep the frequency, keep-alive, settings, timeout and
    launcher of the request; in sources mode they hold exactly the unit's source
    and the request's filter, in tests mode the unit's group and no filter.
   */
  lemma DispatchedCriteria(actual: RunCriteria, unit: WorkUnit)
    ensures var c := UnitCriteria(actual, unit);
      && c.frequencyOfRunStatsChangeEvent == actual.frequencyOfRunStatsChangeEvent
      && c.keepAlive == actual.keepAlive
      && c.testRunSettings == actual.testRunSettings
      && c.runStatsChangeEventTimeout == actual.runStatsChangeEventTimeout
      && c.testHostLauncher == actual.testHostLauncher
      && (unit.SourceUnit? ==> c.payload == Sources([unit.source]) && c.testCaseFilter == actual.testCaseFilter)
      && (unit.TestGroup? ==> c.payload == Tests(unit.tests) && c.testCaseFilter.None?)
  {
  }

  /** In tests mode the units are the source groups; in sources mode one unit per source. */
  lemma WorkUnitsCount(c: RunCriteria)
    ensures c.payload.Sources? ==> |WorkUnits(c)| == |c.payload.sources|
    ensures c.payload.Tests? ==> |WorkUnits(c)| == |DistinctSources(c.payload.tests)|
    ensures forall i :: 0 <= i < |WorkUnits(c)| ==> (WorkUnits(c)[i].TestGroup? <==> c.HasSpecificTests())
    ensures c.payload.Tests? ==> forall i :: 0 <= i < |WorkUnits(c)| ==>
      WorkUnits(c)[i].tests != [] && UnitSource(WorkUnits(c)[i]) == Some(DistinctSources(c.payload.tests)[i])
  {
    if c.payload.Tests? {
      var ts := c.payload.tests;
      GroupsAreHomogeneous(ts);
      forall i | 0 <= i < |WorkUnits(c)|
        ensures UnitSource(WorkUnits(c)[i]) == Some(DistinctSources(ts)[i])
      {
        var g := GroupsBySource(ts)[i];
        assert g[0] in g;
      }
    }
  }

  lemma RegistrationsSnoc(m0: map<WorkerId, RunEventsHandler>, w0: WorkerId, n: nat, ctx: RunContext)
    ensures m0 + Registrations(w0, n + 1, ctx)
         == (m0 + Registrations(w0, n, ctx))[w0 + n := RunEventsHandler(w0 + n, ctx.caller, ctx.aggregator)]
  {
  }

  lemma RegistrationsAppend(m0: map<WorkerId, RunEventsHandler>, w0: WorkerId, a: nat, b: nat, ctx: RunContext)
    ensures m0 + Registrations(w0, a + b, ctx) == (m0 + Registrations(w0, a, ctx)) + Registrations(w0 + a, b, ctx)
  {
    var l := m0 + Registrations(w0, a + b, ctx);
    var r := (m0 + Registrations(w0, a, ctx)) + Registrations(w0 + a, b, ctx);
    assert l.Keys == r.Keys;
  }

  /** The enumerated sequence of StartTestRun: the ToArray of the source groups, or the sources themselves. */
  method ComputeWorkUnits(criteria: RunCriteria) returns (us: seq<WorkUnit>)
    ensures us == WorkUnits(criteria)
  {
    if criteria.HasSpecificTests() {
      var testCaseLists := GroupTestsBySource(criteria.payload.tests);
      us := seq(|testCaseLists|, i requires 0 <= i < |testCaseLists| => TestGroup(testCaseLists[i]));
    } else {
      var ss := criteria.payload.sources;
      us := seq(|ss|, i requires 0 <= i < |ss| => SourceUnit(ss[i]));
    }
  }

  class ParallelProxyExecutionManager {
    var parallelLevel: int
    var availableTestSources: int
    var runCompletedClients: int
    var runStartedClients: int
    var hasSpecificTestsRun: bool
    var actualTestRunCriteria: Option<RunCriteria>
    var currentRunEventsHandler: nat
    /** The current run's aggregator, identified by the number of aggregators created so far. */
    var currentRunDataAggregator: nat
    /** The sequence the source or test-group enumerator walks, and how far it has gone. */
    var units: seq<WorkUnit>
    var cursor: nat
    /** The base class's manager-to-handler map. */
    var managers: map<WorkerId, RunEventsHandler>
    var nextWorker: WorkerId
    var events: seq<Event>

    ghost predicate Valid()
      reads this
    {
      && parallelLevel >= 1
      && cursor <= |units|
      && (units != [] ==> actualTestRunCriteria.Some?)
      && (forall w :: w in managers ==> w < nextWorker)
    }

    /** The run-scoped fields an activation does not change. */
    ghost function RunScope(): (bool, int, int, int, Option<RunCriteria>, nat, nat, seq<WorkUnit>)
      reads this
    {
      (hasSpecificTestsRun, parallelLevel, availableTestSources, runCompletedClients,
       actualTestRunCriteria, currentRunEventsHandler, currentRunDataAggregator, units)
    }

    function Context(): RunContext
      reads this
      requires actualTestRunCriteria.Some?
    {
      RunContext(actualTestRunCriteria.value, currentRunEventsHandler, currentRunDataAggregator)
    }

    constructor (parallelLevel: int)
      ensures Valid()
      ensures this.parallelLevel == if parallelLevel > 0 then parallelLevel else 1
      ensures availableTestSources == -1 && runCompletedClients == 0 && runStartedClients == 0
      ensures !hasSpecificTestsRun && actualTestRunCriteria.None?
      ensures units == [] && cursor == 0 && managers == map[] && nextWorker == 0 && events == []
    {
      this.parallelLevel := 1;
      availableTestSources := -1;
      runCompletedClients := 0;
      runStartedClients := 0;
      hasSpecificTestsRun := false;
      actualTestRunCriteria := None;
      currentRunEventsHandler := 0;
      currentRunDataAggregator := 0;
      units := [];
      cursor := 0;
      managers := map[];
      nextWorker := 0;
      events := [];
      new;
      if parallelLevel > 0 {
        this.parallelLevel := parallelLevel;
      }
    }

    /** The base class's TryFetchNextSource: advance the enumerator and yield its element, if any. */
    method TryFetchNextSource() returns (found: bool, unit: WorkUnit)
      requires Valid()
      modifies this`cursor
      ensures Valid()
      ensures found <==> old(cursor) < |units|
      ensures found ==> unit == units[old(cursor)] && cursor == old(cursor) + 1
      ensures !found ==> cursor == old(cursor)
    {
      found := cursor < |units|;
      if found {
        unit := units[cursor];
        cursor := cursor + 1;
      } else {
        unit := SourceUnit("");
      }
    }

    /** The base class's AddManager. */
    method AddManager(w: WorkerId, h: RunEventsHandler)
      modifies this`managers, this`events
      ensures managers == old(managers)[w := h]
      ensures events == old(events) + [Registered(w, h)]
    {
      managers := managers[w := h];
      events := events + [Registered(w, h)];
    }

    /** The base class's GetHandlerForGivenManager. */
    function GetHandlerForGivenManager(w: WorkerId): (h: RunEventsHandler)
      reads this
      requires w in managers
      ensures h == managers[w]
    {
      managers[w]
    }

    /**
      StartTestRunOnConcurrentManager: one activation. Its documentation also
      makes it the re-feed step a finished worker triggers; in the code as
      written only the initial loop of StartTestRun calls it.
     */
    method StartTestRunOnConcurrentManager(faults: WorkerId -> bool)
      requires Valid()
      modifies this
      ensures Valid()
      ensures RunScope() == old(RunScope())
      ensures old(cursor) < |units| ==>
        && cursor == old(cursor) + 1
        && nextWorker == old(nextWorker) + 1
        && runStartedClients == old(runStartedClients) + 1
        && managers == old(managers)[old(nextWorker) := RunEventsHandler(old(nextWorker), currentRunEventsHandler, currentRunDataAggregator)]
        && events == old(events) + StepEvents(old(nextWorker), units[old(cursor)], Context(), faults(old(nextWorker)))
      ensures old(cursor) == |units| ==>
        && cursor == old(cursor) && nextWorker == old(nextWorker) && runStartedClients == old(runStartedClients)
        && managers == old(managers) && events == old(events)
    {
      var found, unit := TryFetchNextSource();
      if found {
        ghost var e0 := events;
        var ctx := Context();
        var criteria := UnitCriteria(ctx.actual, unit);
        var worker := nextWorker;  // new AppDomainExecutionManagerInvoker(testSource)
        nextWorker := nextWorker + 1;
        var handler := RunEventsHandler(worker, currentRunEventsHandler, currentRunDataAggregator);
        AddManager(worker, handler);
        // A freshly created worker is never initialized yet.
        events := events + [Initialized(worker)];
        // The asynchronous start, taken as one sequential event.
        runStartedClients := runStartedClients + 1;
        events := events + [Started(worker, UnitSource(unit), criteria, handler)];
        ghost var pre := [Registered(worker, handler), Initialized(worker), Started(worker, UnitSource(unit), criteria, handler)];
        assert events == e0 + pre;
        if faults(worker) {
          var h := GetHandlerForGivenManager(worker);
          events := events + [Completed(h, AbortedArgs, None, None, None)];
          ConcatAssoc(e0, pre, [AbortCompletion(handler)]);
        }
      }
    }

    /** The first half of StartTestRun: record the request, reset the counters, partition, new aggregator. */
    method BeginRun(criteria: RunCriteria, eventHandler: nat)
      requires Valid()
      modifies this
      ensures Valid()
      ensures parallelLevel == old(parallelLevel)
      ensures hasSpecificTestsRun == criteria.HasSpecificTests()
      ensures actualTestRunCriteria == Some(criteria) && currentRunEventsHandler == eventHandler
      ensures runCompletedClients == 0
      ensures currentRunDataAggregator == old(currentRunDataAggregator) + 1
      ensures units == WorkUnits(criteria) && availableTestSources == |units| && cursor == 0
      ensures nextWorker == old(nextWorker) && runStartedClients == old(runStartedClients)
      ensures managers == old(managers) && events == old(events)
    {
      hasSpecificTestsRun := criteria.HasSpecificTests();
      actualTestRunCriteria := Some(criteria);
      currentRunEventsHandler := eventHandler;
      runCompletedClients := 0;
      var us := ComputeWorkUnits(criteria);
      units := us;
      availableTestSources := |us|;
      cursor := 0;
      currentRunDataAggregator := currentRunDataAggregator + 1;
    }

    method StartTestRun(criteria: RunCriteria, eventHandler: nat, faults: WorkerId -> bool) returns (r: int)
      requires Valid()
      modifies this
      ensures Valid()
      ensures r == 1
      ensures parallelLevel == old(parallelLevel)
      ensures hasSpecificTestsRun == criteria.HasSpecificTests()
      ensures actualTestRunCriteria == Some(criteria) && currentRunEventsHandler == eventHandler
      ensures runCompletedClients == 0
      ensures currentRunDataAggregator == old(currentRunDataAggregator) + 1
      ensures units == WorkUnits(criteria) && availableTestSources == |units|
      ensures cursor == Min(parallelLevel, |units|)
      ensures nextWorker == old(nextWorker) + cursor
      ensures runStartedClients == old(runStartedClients) + cursor
      ensures managers == old(managers) + Registrations(old(nextWorker), cursor, Context())
      ensures events == old(events) + Dispatch(old(nextWorker), units[..cursor], Context(), faults)
    {
      BeginRun(criteria, eventHandler);
      ghost var w0 := nextWorker;
      ghost var m0 := managers;
      ghost var e0 := events;
      ghost var s0 := runStartedClients;
      ghost var ctx := Context();
      ghost var scope := RunScope();
      var i := 0;
      while i < parallelLevel
        invariant 0 <= i <= parallelLevel
        invariant Valid() && actualTestRunCriteria.Some? && RunScope() == scope && ctx == Context()
        invariant cursor == Min(i, |units|)
        invariant nextWorker == w0 + cursor && runStartedClients == s0 + cursor
        invariant managers == m0 + Registrations(w0, cursor, ctx)
        invariant events == e0 + Dispatch(w0, units[0..cursor], ctx, faults)
      {
        ActivationStep(faults, 0, w0, s0, m0, e0, ctx, scope);
        i := i + 1;
      }
      assert units[0..cursor] == units[..cursor];
      r := 1;
    }

    /**
      The re-feed protocol documented beside the activation step, in sequential
      form: the activation step runs again, once per finished worker, until the
      enumerator is exhausted. In the code as written nothing reaches this: the
      activation step is private, its only caller is the initial loop of
      StartTestRun, and the partial-completion callback throws.
     */
    method RefeedUntilExhausted(faults: WorkerId -> bool)
      requires Valid()
      modifies this
      ensures Valid()
      ensures RunScope() == old(RunScope())
      ensures units == old(units) && cursor == |units|
      ensures nextWorker == old(nextWorker) + (|units| - old(cursor))
      ensures old(cursor) < |units| ==>
        managers == old(managers) + Registrations(old(nextWorker), |units| - old(cursor), Context())
      ensures runStartedClients == old(runStartedClients) + (|units| - old(cursor))
      ensures old(cursor) < |units| ==> events == old(events) + Dispatch(old(nextWorker), units[old(cursor)..], Context(), faults)
      ensures old(cursor) == |units| ==> events == old(events) && managers == old(managers)
    {
      if cursor == |units| {
        return;
      }
      ghost var c0 := cursor;
      ghost var w0 := nextWorker;
      ghost var s0 := runStartedClients;
      ghost var m0 := managers;
      ghost var e0 := events;
      ghost var ctx := Context();
      ghost var scope := RunScope();
      while cursor < |units|
        invariant Valid() && actualTestRunCriteria.Some?
        invariant RunScope() == scope && c0 <= cursor <= |units| && ctx == Context()
        invariant nextWorker == w0 + (cursor - c0) && runStartedClients == s0 + (cursor - c0)
        invariant managers == m0 + Registrations(w0, cursor - c0, ctx)
        invariant events == e0 + Dispatch(w0, units[c0..cursor], ctx, faults)
        decreases |units| - cursor
      {
        ActivationStep(faults, c0, w0, s0, m0, e0, ctx, scope);
      }
      assert units[c0..cursor] == units[c0..];
    }

    /**
      One call of the activation step, with the ghost snapshot of the run it is
      part of: the dispatched slice `units[c0..cursor]` grows by the unit taken,
      if one is left, and the trace and the manager map grow with it.
     */
    method ActivationStep(faults: WorkerId -> bool, ghost c0: nat, ghost w0: WorkerId, ghost s0: int,
                          ghost m0: map<WorkerId, RunEventsHandler>, ghost e0: seq<Event>, ghost ctx: RunContext,
                          ghost scope: (bool, int, int, int, Option<RunCriteria>, nat, nat, seq<WorkUnit>))
      requires Valid() && actualTestRunCriteria.Some? && RunScope() == scope && c0 <= cursor <= |units|
      requires ctx == Context()
      requires nextWorker == w0 + (cursor - c0) && runStartedClients == s0 + (cursor - c0)
      requires managers == m0 + Registrations(w0, cursor - c0, ctx)
      requires events == e0 + Dispatch(w0, units[c0..cursor], ctx, faults)
      modifies this
      ensures Valid() && actualTestRunCriteria.Some? && RunScope() == scope && ctx == Context()
      ensures cursor == if old(cursor) < |units| then old(cursor) + 1 else old(cursor)
      ensures nextWorker == w0 + (cursor - c0) && runStartedClients == s0 + (cursor - c0)
      ensures managers == m0 + Registrations(w0, cursor - c0, ctx)
      ensures events == e0 + Dispatch(w0, units[c0..cursor], ctx, faults)
    {
      ghost var c := cursor;
      ghost var before := managers;
      StartTestRunOnConcurrentManager(faults);
      if c < |units| {
        assert managers == before[w0 + (c - c0) := RunEventsHandler(w0 + (c - c0), ctx.caller, ctx.aggregator)];
        DispatchSliceStep(w0, units, c0, c, ctx, faults);
        RegistrationsSnoc(m0, w0, c - c0, ctx);
      }
    }

    /**
      A whole run under the re-feed protocol: StartTestRun fills the slots, then
      re-feeds hand out the rest. Every unit is started exactly once, in order,
      on its own new worker, and every worker is registered for this run.
     */
    method StartTestRunAndRefeed(criteria: RunCriteria, eventHandler: nat, faults: WorkerId -> bool) returns (r: int)
      requires Valid()
      modifies this
      ensures Valid() && r == 1
      ensures actualTestRunCriteria == Some(criteria) && units == WorkUnits(criteria) && cursor == |units|
      ensures nextWorker == old(nextWorker) + |units|
      ensures managers == old(managers) + Registrations(old(nextWorker), |units|, Context())
      ensures events == old(events) + Dispatch(old(nextWorker), units, Context(), faults)
      ensures Starts(events[|old(events)|..]) == StartedPairs(old(nextWorker), units, criteria)
    {
      ghost var w0 := nextWorker;
      ghost var e0 := events;
      ghost var m0 := managers;
      r := StartTestRun(criteria, eventHandler, faults);
      ghost var k := cursor;
      ghost var ctx := Context();
      RefeedUntilExhausted(faults);
      WholeRunTrace(e0, m0, w0, units, k, ctx, faults, events, managers);
    }

    /** DisposeInstance: Close the worker if there is one; a failing Close is swallowed. */
    method DisposeInstance(manager: Option<WorkerId>, closeFails: bool)
      modifies this`events
      ensures events == old(events) + (if manager.Some? then [Closed(manager.value, closeFails)] else [])
    {
      if manager.Some? {
        events := events + [Closed(manager.value, closeFails)];
      }
    }
  }

  /**
    Over the life of a run, the initial slots followed by the re-feeds start
    exactly one worker per unit, whatever the parallel level, each with its own
    unit, in order.
   */
  lemma {:induction false} WholeRunStartsEveryUnitOnce(w0: WorkerId, us: seq<WorkUnit>, k: nat, ctx: RunContext, faults: WorkerId -> bool)
    requires k <= |us|
    ensures Starts(Dispatch(w0, us[..k], ctx, faults) + Dispatch(w0 + k, us[k..], ctx, faults))
         == StartedPairs(w0, us, ctx.actual)
  {
    assert us[..k] + us[k..] == us;
    DispatchAppend(w0, us[..k], us[k..], ctx, faults);
    DispatchStarts(w0, us, ctx, faults);
  }

  /** The trace and the manager map of a whole run, assembled from the initial slots and the re-feeds. */
  lemma WholeRunTrace(e0: seq<Event>, m0: map<WorkerId, RunEventsHandler>, w0: WorkerId, us: seq<WorkUnit>, k: nat,
                      ctx: RunContext, faults: WorkerId -> bool, e2: seq<Event>, m2: map<WorkerId, RunEventsHandler>)
    requires k <= |us|
    requires k < |us| ==> e2 == (e0 + Dispatch(w0, us[..k], ctx, faults)) + Dispatch(w0 + k, us[k..], ctx, faults)
    requires k < |us| ==> m2 == (m0 + Registrations(w0, k, ctx)) + Registrations(w0 + k, |us| - k, ctx)
    requires k == |us| ==> e2 == e0 + Dispatch(w0, us[..k], ctx, faults) && m2 == m0 + Registrations(w0, k, ctx)
    ensures e2 == e0 + Dispatch(w0, us, ctx, faults)
    ensures m2 == m0 + Registrations(w0, |us|, ctx)
    ensures Starts(e2[|e0|..]) == StartedPairs(w0, us, ctx.actual)
  {
    assert us[..k] + us[k..] == us;
    DispatchAppend(w0, us[..k], us[k..], ctx, faults);
    if k < |us| {
      RegistrationsAppend(m0, w0, k, |us| - k, ctx);
    } else {
      assert us[..k] == us;
    }
    assert e2[|e0|..] == Dispatch(w0, us, ctx, faults);
    DispatchStarts(w0, us, ctx, faults);
  }
}
