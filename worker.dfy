/**
  The worker that runs inside an isolated app domain (NoIsolationInAppDomain):
  a one-way initialization flag and the calls it makes on the engine's
  execution manager, recorded in order in `calls`.
 */
module InAppDomainWorker {
  import opened ObjectModel

  /** TestExecutionContext as the worker builds it for a run. */
  datatype ExecutionContext = ExecutionContext(
    frequencyOfRunStatsChangeEvent: int,
    runStatsChangeEventTimeout: int,
    inIsolation: bool,
    keepAlive: bool,
    isDataCollectionEnabled: bool,
    areTestCaseLevelEventsRequired: bool,
    hasTestRun: bool,
    isDebug: bool,
    testCaseFilter: Option<string>)

  /** The calls made on the execution manager (the handler is the caller's events handler). */
  datatype ExecutionCall =
    | InitializeExtensions(paths: seq<string>)
    | RunSources(sources: seq<string>, settings: Option<string>, context: ExecutionContext, handler: nat)
    | RunTests(tests: seq<TestCase>, settings: Option<string>, context: ExecutionContext, handler: nat)
    | AbortRun
    | CancelRun

  /** The context of a run in the app domain: no isolation, no data collection, debug only through a debugging launcher. */
  function ContextFor(c: RunCriteria): (ctx: ExecutionContext)
    ensures !ctx.inIsolation && !ctx.isDataCollectionEnabled && !ctx.areTestCaseLevelEventsRequired && ctx.hasTestRun
    ensures ctx.isDebug <==> c.testHostLauncher.Some? && c.testHostLauncher.value.isDebug
    ensures ctx.keepAlive == c.keepAlive && ctx.testCaseFilter == c.testCaseFilter
    ensures ctx.frequencyOfRunStatsChangeEvent == c.frequencyOfRunStatsChangeEvent
    ensures ctx.runStatsChangeEventTimeout == c.runStatsChangeEventTimeout
  {
    ExecutionContext(
      c.frequencyOfRunStatsChangeEvent, c.runStatsChangeEventTimeout,
      false, c.keepAlive, false, false, true,
      c.testHostLauncher.Some? && c.testHostLauncher.value.isDebug,
      c.testCaseFilter)
  }

  /** The run call StartTestRun issues: over the sources when the request names sources, else over its tests. */
  function RunCall(c: RunCriteria, handler: nat): (call: ExecutionCall)
    ensures c.HasSpecificSources() <==> call.RunSources?
    ensures call.RunSources? ==> call.sources == c.payload.sources
    ensures call.RunTests? ==> call.tests == c.payload.tests
    ensures (call.RunSources? || call.RunTests?) && call.settings == c.testRunSettings
    ensures call.context == ContextFor(c) && call.handler == handler
  {
    match c.payload
    case Sources(ss) => RunSources(ss, c.testRunSettings, ContextFor(c), handler)
    case Tests(ts) => RunTests(ts, c.testRunSettings, ContextFor(c), handler)
  }

  class NoIsolationInAppDomain {
    var isInitialized: bool
    var calls: seq<ExecutionCall>

    constructor ()
      ensures !isInitialized && calls == []
    {
      isInitialized := false;
      calls := [];
    }

    /** Initialize: only the first call with a non-null, non-empty extension list initializes. */
    method Initialize(pathToExtensions: Option<seq<string>>)
      modifies this
      ensures old(isInitialized) ==> isInitialized && calls == old(calls)
      ensures !old(isInitialized) ==>
        (isInitialized <==> pathToExtensions.Some? && |pathToExtensions.value| > 0)
      ensures !old(isInitialized) && isInitialized ==> calls == old(calls) + [InitializeExtensions(pathToExtensions.value)]
      ensures !isInitialized ==> calls == old(calls)
    {
      if !isInitialized {
        if pathToExtensions.Some? && |pathToExtensions.value| > 0 {
          calls := calls + [InitializeExtensions(pathToExtensions.value)];
          isInitialized := true;
        }
      }
    }

    /**
      StartTestRun: an uninitialized worker first initializes the execution
      manager with no extensions (without setting its own flag), then starts the run.
     */
    method StartTestRun(criteria: RunCriteria, eventHandler: nat) returns (r: int)
      modifies this
      ensures r == 0
      ensures isInitialized == old(isInitialized)
      ensures calls == old(calls) + (if old(isInitialized) then [] else [InitializeExtensions([])])
                       + [RunCall(criteria, eventHandler)]
    {
      if !isInitialized {
        calls := calls + [InitializeExtensions([])];
      }
      var executionContext := ContextFor(criteria);
      if criteria.HasSpecificSources() {
        calls := calls + [RunSources(criteria.payload.sources, criteria.testRunSettings, executionContext, eventHandler)];
      } else {
        calls := calls + [RunTests(criteria.payload.tests, criteria.testRunSettings, executionContext, eventHandler)];
      }
      r := 0;
    }

    method Abort()
      modifies this
      ensures isInitialized == old(isInitialized) && calls == old(calls) + [AbortRun]
    {
      calls := calls + [AbortRun];
    }

    method Cancel()
      modifies this
      ensures isInitialized == old(isInitialized) && calls == old(calls) + [CancelRun]
    {
      calls := calls + [CancelRun];
    }

    /** Close: there is no test host to close. */
    method Close()
      ensures unchanged(this)
    {
    }
  }
}
