/**
  Value types shared by the test-platform engine model: the run criteria a
  caller hands to an execution manager, the test cases they may carry, and the
  arguments of a run-completion event.
 */
module ObjectModel {

  datatype Option<+T> = None | Some(value: T)

  /** The exceptions the modelled code throws, by kind and offending parameter. */
  datatype Error =
    | ArgumentNull(param: string)
    | ArgumentEmpty(param: string)
    | XmlError(node: string)
    | NullReference

  datatype Result<+T> = Ok(value: T) | Err(error: Error)

  /** A test case: only its identity and the source (test container) it belongs to matter here. */
  datatype TestCase = TestCase(id: string, source: string)

  /** The custom test-host launcher; the engine only asks whether it debugs. */
  datatype Launcher = Launcher(isDebug: bool)

  /** A run is over whole sources or over specific tests; never both. */
  datatype Payload = Sources(sources: seq<string>) | Tests(tests: seq<TestCase>)

  datatype RunCriteria = RunCriteria(
    payload: Payload,
    testCaseFilter: Option<string>,
    frequencyOfRunStatsChangeEvent: int,
    keepAlive: bool,
    testRunSettings: Option<string>,
    runStatsChangeEventTimeout: int,
    testHostLauncher: Option<Launcher>)
  {
    predicate HasSpecificTests() { payload.Tests? }
    predicate HasSpecificSources() { payload.Sources? }
  }

  /** Opaque payloads of a completion event: statistics and attachment sets. */
  datatype RunStatistics = RunStatistics(executed: nat)
  datatype AttachmentSet = AttachmentSet(uri: string)

  /** Arguments of TestRunCompleteEventArgs; elapsed time in ticks. */
  datatype RunCompleteArgs = RunCompleteArgs(
    statistics: Option<RunStatistics>,
    isCanceled: bool,
    isAborted: bool,
    error: Option<string>,
    attachmentSets: seq<AttachmentSet>,
    elapsedTicks: int)
}
