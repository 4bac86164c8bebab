# Test platform: parallel in-app-domain execution and run-settings utilities

This project models four parts of the test platform's engine and object
model in Dafny.

- **Parallel execution without process isolation.** The
  `ParallelNoIsolationProxyExecutionManager` takes a run request and splits it
  into work units: one unit per source, or one group of test cases per source
  in first-seen order. It then offers one unit to each of `parallelLevel`
  slots. Each unit taken gets a fresh app-domain worker, which is registered
  with its own events handler, initialized and started. A worker whose start
  faults gets a synthesized aborted completion. The asynchronous start is
  modelled as one sequential step, and whether a worker's start faults is an
  input (`faults`). The manager's effects on the outside world are recorded
  in order in an event trace. They are proved against the specification
  function `Dispatch`.
- **The worker inside the app domain** (`NoIsolationInAppDomain`). It has a
  one-way initialization flag. It records, in order, the calls it makes on the
  engine's execution manager.
- **Run-settings utilities** (`XmlRunSettingsUtilities`). Documents are
  abstract element trees, changed in place through a document object:
  - remove or replace a top-level section;
  - find a data collector by uri;
  - insert a data collector, creating `DataCollectionRunSettings` and
    `DataCollectors` where they are missing;
  - build the default document;
  - the reader scans that look up a top-level section by name.
- **App-domain setup and assembly resolution** (`AppDomainManagerFactory.cs`):
  - the choice of the configuration file for the test app domain;
  - the merge of the user's configuration with the test host's (startup,
    runtime, assemblyBinding and dependentAssembly elements, probing
    removed);
  - the extension list the invoker hands to the worker;
  - the invoker's forwarding calls;
  - the memoizing `CustomAssemblyResolver`.

Files: `objectmodel.dfy` holds the shared data types, `text.dfy` the ordinal
case-insensitive comparisons and `Path.Combine`, and `partition.dfy` the split
into work units. `parallel.dfy` is the manager, `worker.dfy` the worker,
`xmltree.dfy` the element tree and the DOM document, `runsettings.dfy` the
run-settings utilities, and `appdomain.dfy` the app-domain setup and the
resolver.

## Model

Source paths are relative to the repository root.

| member | source | states |
|---|---|---|
| Partition.GroupTestsBySource | src/Microsoft.TestPlatform.CrossPlatEngine/Client/Parallel/ParallelNoIsolationProxyExecutionManager.cs:79-94 | The foreach that fills the source-keyed dictionary, followed by its `Values.ToArray()`, yields exactly `GroupsBySource(tests)`: the groups of tests by source, in first-seen source order. |
| Partition.GroupsArePermutation | src/Microsoft.TestPlatform.CrossPlatEngine/Client/Parallel/ParallelNoIsolationProxyExecutionManager.cs:79-94 | The groups together are a permutation of the input tests: no test is lost, duplicated or invented. |
| Partition.GroupsAreHomogeneous | src/Microsoft.TestPlatform.CrossPlatEngine/Client/Parallel/ParallelNoIsolationProxyExecutionManager.cs:79-96 | There is one group per distinct source. Every group is non-empty, and all of its tests are input tests of that group's source. No test is in two groups. |
| Partition.DistinctSourcesSpec | src/Microsoft.TestPlatform.CrossPlatEngine/Client/Parallel/ParallelNoIsolationProxyExecutionManager.cs:82-85 | The dictionary's keys hold no duplicates. A source is a key exactly when some test has that source. |
| Partition.TestsOfSpec | src/Microsoft.TestPlatform.CrossPlatEngine/Client/Parallel/ParallelNoIsolationProxyExecutionManager.cs:87 | A source's list holds only input tests of that source. It is non-empty exactly when the source is a key. |
| ParallelExecution.WorkUnitsCount | src/Microsoft.TestPlatform.CrossPlatEngine/Client/Parallel/ParallelNoIsolationProxyExecutionManager.cs:77-104 | `availableTestSources` is the number of sources in sources mode and the number of distinct sources in tests mode. A unit is a test group exactly when the request names tests. Each group is non-empty, and the source it is created for is the i-th distinct source. |
| ParallelExecution.ComputeWorkUnits | src/Microsoft.TestPlatform.CrossPlatEngine/Client/Parallel/ParallelNoIsolationProxyExecutionManager.cs:77-104 | The sequence the enumerator walks is `WorkUnits(criteria)`. |
| ParallelExecution.ParallelProxyExecutionManager.constructor | src/Microsoft.TestPlatform.CrossPlatEngine/Client/Parallel/ParallelNoIsolationProxyExecutionManager.cs:17-41 | The parallel level is the argument when it is positive and 1 otherwise. The counters start at -1, 0 and 0, no manager is registered and nothing has happened yet. |
| ParallelExecution.ParallelProxyExecutionManager.TryFetchNextSource | src/Microsoft.TestPlatform.CrossPlatEngine/Client/Parallel/ParallelNoIsolationProxyExecutionManager.cs:136 | An element is yielded exactly when the enumerator is not exhausted. That element is the next one, and the enumerator advances by one. |
| ParallelExecution.ParallelProxyExecutionManager.AddManager | src/Microsoft.TestPlatform.CrossPlatEngine/Client/Parallel/ParallelNoIsolationProxyExecutionManager.cs:179 | The worker is mapped to its handler, and the registration is recorded. |
| ParallelExecution.ParallelProxyExecutionManager.GetHandlerForGivenManager | src/Microsoft.TestPlatform.CrossPlatEngine/Client/Parallel/ParallelNoIsolationProxyExecutionManager.cs:212 | The handler returned is the one registered for the worker. |
| ParallelExecution.ParallelProxyExecutionManager.StartTestRunOnConcurrentManager | src/Microsoft.TestPlatform.CrossPlatEngine/Client/Parallel/ParallelNoIsolationProxyExecutionManager.cs:130-221 | With a unit left, it takes exactly the next unit for one new worker. It registers `RunEventsHandler(worker, caller handler, aggregator)`, then initializes the worker. It increments `runStartedClients`, starts the worker with `UnitCriteria`, and on a fault sends the aborted completion. With none left it changes nothing. The run-scoped fields are never changed. |
| ParallelExecution.ParallelProxyExecutionManager.BeginRun | src/Microsoft.TestPlatform.CrossPlatEngine/Client/Parallel/ParallelNoIsolationProxyExecutionManager.cs:68-113 | It records the request, handler and mode, and resets `runCompletedClients` to 0. It sets the units and `availableTestSources` to their count, rewinds the enumerator and creates a new aggregator. |
| ParallelExecution.ParallelProxyExecutionManager.StartTestRun | src/Microsoft.TestPlatform.CrossPlatEngine/Client/Parallel/ParallelNoIsolationProxyExecutionManager.cs:68-121 | It returns 1. Exactly `min(parallelLevel, units)` units are dispatched, to that many new workers in order. The manager map gains exactly their registrations, and the trace gains exactly `Dispatch` of those units. |
| ParallelExecution.ParallelProxyExecutionManager.RefeedUntilExhausted | src/Microsoft.TestPlatform.CrossPlatEngine/Client/Parallel/ParallelNoIsolationProxyExecutionManager.cs:124-130 | The documented re-feed protocol (the activation runs again once per finished worker) dispatches every remaining unit exactly once, in order, to new workers, each registered for this run. The run-scoped fields, and so the run context, are unchanged. |
| ParallelExecution.ParallelProxyExecutionManager.ActivationStep | src/Microsoft.TestPlatform.CrossPlatEngine/Client/Parallel/ParallelNoIsolationProxyExecutionManager.cs:115-130 | One activation, from the initial loop or a re-feed, advances the cursor by one exactly when a unit is left. It extends the trace by that unit's dispatch and the manager map by its worker's registration, and keeps the run scope and context. |
| ParallelExecution.ParallelProxyExecutionManager.StartTestRunAndRefeed | src/Microsoft.TestPlatform.CrossPlatEngine/Client/Parallel/ParallelNoIsolationProxyExecutionManager.cs:68-130 | A whole run under the re-feed protocol: the trace is the dispatch of every unit from the first new worker on, every worker is registered for this run, and the workers started are one per unit, in order, each with that unit's criteria. |
| ParallelExecution.ParallelProxyExecutionManager.DisposeInstance | src/Microsoft.TestPlatform.CrossPlatEngine/Client/Parallel/ParallelNoIsolationProxyExecutionManager.cs:224-238 | A present manager is closed once, and a failing Close changes nothing else. A null manager leaves the trace unchanged. |
| ParallelExecution.DispatchStarts | src/Microsoft.TestPlatform.CrossPlatEngine/Client/Parallel/ParallelNoIsolationProxyExecutionManager.cs:170-194 | The i-th start in a dispatch is worker `w0 + i` with the criteria of the i-th unit. So there are as many starts as units, and no unit is skipped, repeated or reordered. |
| ParallelExecution.WholeRunStartsEveryUnitOnce | src/Microsoft.TestPlatform.CrossPlatEngine/Client/Parallel/ParallelNoIsolationProxyExecutionManager.cs:115-130 | The initial slots followed by the re-feeds start one worker per unit, whatever the parallel level. Each worker gets its own unit, in order. |
| ParallelExecution.WholeRunTrace | src/Microsoft.TestPlatform.CrossPlatEngine/Client/Parallel/ParallelNoIsolationProxyExecutionManager.cs:115-130 | The initial slots' trace and manager map followed by the re-feeds' are the dispatch and the registrations of all units, and the workers started are one per unit, in order. |
| ParallelExecution.DispatchRegistersFirst | src/Microsoft.TestPlatform.CrossPlatEngine/Client/Parallel/ParallelNoIsolationProxyExecutionManager.cs:179-194 | Every started worker was registered earlier in the trace, with the handler it is started with, and initialized after that. |
| ParallelExecution.DispatchCompletionsAreAborts | src/Microsoft.TestPlatform.CrossPlatEngine/Client/Parallel/ParallelNoIsolationProxyExecutionManager.cs:196-214 | Every completion the manager sends is aborted and not canceled, with no statistics, attachments or executors. It goes to the registered handler of a dispatched worker whose start faulted. |
| ParallelExecution.DispatchCompletionsCount | src/Microsoft.TestPlatform.CrossPlatEngine/Client/Parallel/ParallelNoIsolationProxyExecutionManager.cs:196-214 | A dispatched worker whose start faults gets exactly one aborted completion. One whose start succeeds gets none from the manager. |
| ParallelExecution.DispatchedCriteria | src/Microsoft.TestPlatform.CrossPlatEngine/Client/Parallel/ParallelNoIsolationProxyExecutionManager.cs:141-166 | A worker's criteria keep the request's frequency, keep-alive, settings, timeout and launcher. In sources mode they hold just the unit's source and the request's filter. In tests mode they hold the unit's group and no filter. |
| InAppDomainWorker.ContextFor | src/Microsoft.TestPlatform.CrossPlatEngine/Client/NoIsolationInAppDomain.cs:79-88 | The execution context is not isolated, has no data collection and no test-case-level events, and has a test run. It is debug exactly when a launcher is given and it debugs. The keep-alive flag, the filter, the frequency and the timeout come from the request. |
| InAppDomainWorker.RunCall | src/Microsoft.TestPlatform.CrossPlatEngine/Client/NoIsolationInAppDomain.cs:90-99 | The run is over the sources exactly when the request names sources, and otherwise over its tests. It carries the request's settings, this context and the caller's handler. |
| InAppDomainWorker.NoIsolationInAppDomain.constructor | src/Microsoft.TestPlatform.CrossPlatEngine/Client/NoIsolationInAppDomain.cs:27-46 | A new worker is not initialized and has made no calls. |
| InAppDomainWorker.NoIsolationInAppDomain.Initialize | src/Microsoft.TestPlatform.CrossPlatEngine/Client/NoIsolationInAppDomain.cs:52-66 | An initialized worker ignores the call. An uninitialized one becomes initialized exactly when the list is non-null and non-empty, and then it initializes the execution manager with that list, once. Otherwise nothing happens. The flag never goes back. |
| InAppDomainWorker.NoIsolationInAppDomain.StartTestRun | src/Microsoft.TestPlatform.CrossPlatEngine/Client/NoIsolationInAppDomain.cs:68-102 | It returns 0. An uninitialized worker first initializes the execution manager with no extensions, without setting its own flag. Then it issues exactly `RunCall(criteria, handler)`. |
| InAppDomainWorker.NoIsolationInAppDomain.Abort | src/Microsoft.TestPlatform.CrossPlatEngine/Client/NoIsolationInAppDomain.cs:107-110 | One abort is sent to the execution manager, and the flag is unchanged. |
| InAppDomainWorker.NoIsolationInAppDomain.Cancel | src/Microsoft.TestPlatform.CrossPlatEngine/Client/NoIsolationInAppDomain.cs:115-118 | One cancel is sent to the execution manager, and the flag is unchanged. |
| InAppDomainWorker.NoIsolationInAppDomain.Close | src/Microsoft.TestPlatform.CrossPlatEngine/Client/NoIsolationInAppDomain.cs:124-126 | Nothing changes. |
| XmlTree.FirstChildNamed | src/Microsoft.TestPlatform.ObjectModel/Utilities/XmlRunSettingsUtilities.cs:72 | `root[name]` is the first child with that name: it matches, no earlier child matches, and no result means no child matches. |
| XmlTree.AppendAtSpec | src/Microsoft.TestPlatform.ObjectModel/Utilities/XmlRunSettingsUtilities.cs:106 | AppendChild below a path keeps the path valid, and the root's name, attributes and text. The target gets the new nodes at the end of its children and is otherwise unchanged; at each level the siblings before and after the path are unchanged. |
| XmlTree.AppendAtFrame | src/Microsoft.TestPlatform.ObjectModel/Utilities/XmlRunSettingsUtilities.cs:106 | Every element at a path that leaves the target's path is the same after AppendChild: only the target's subtree grows. |
| XmlTree.XmlDocument.AppendChildAt | src/Microsoft.TestPlatform.ObjectModel/Utilities/XmlRunSettingsUtilities.cs:106 | The document's tree becomes the old tree with the node appended under the path. |
| XmlTree.XmlDocument.RemoveRootChild | src/Microsoft.TestPlatform.ObjectModel/Utilities/XmlRunSettingsUtilities.cs:74 | The document element loses exactly that child; the other children keep their order. |
| XmlTree.XmlDocument.SetRootChildInnerXml | src/Microsoft.TestPlatform.ObjectModel/Utilities/XmlRunSettingsUtilities.cs:110 | That child's content is replaced; its name and attributes and every other child stay. |
| RunSettingsUtilities.OSArchitecture | src/Microsoft.TestPlatform.ObjectModel/Utilities/XmlRunSettingsUtilities.cs:25-41 | X64 exactly for an X64 platform and X86 exactly for an X86 platform. ARM for every other platform. |
| RunSettingsUtilities.RemoveSettingsNode | src/Microsoft.TestPlatform.ObjectModel/Utilities/XmlRunSettingsUtilities.cs:60-77 | A null or empty document fails with ArgumentNull or ArgumentEmpty on `settingsXml`. A null or empty name then fails the same way on `settingsName`. Other unparsable text is an XML error. A document gives `WithoutSection`. |
| RunSettingsUtilities.WithoutSectionSpec | src/Microsoft.TestPlatform.ObjectModel/Utilities/XmlRunSettingsUtilities.cs:70-76 | Removing keeps the document element's name and attributes. It takes exactly one child of that name away when there is one, and the document is unchanged exactly when there is none. |
| RunSettingsUtilities.ReplaceSettingsNode | src/Microsoft.TestPlatform.ObjectModel/Utilities/XmlRunSettingsUtilities.cs:86-114 | A null section fails first, then a null document. Empty or blank text is an XML error. A document gives `WithSection`. |
| RunSettingsUtilities.WithSectionSpec | src/Microsoft.TestPlatform.ObjectModel/Utilities/XmlRunSettingsUtilities.cs:100-111 | Replacing keeps the document element's name and attributes. It appends the section when its name is new, and keeps the child count otherwise. The first child of that name then has the section's content. |
| RunSettingsUtilities.WithSectionIdempotent | src/Microsoft.TestPlatform.ObjectModel/Utilities/XmlRunSettingsUtilities.cs:100-111 | Replacing a section a second time with the same content changes nothing. |
| RunSettingsUtilities.RemoveUndoesAdd | src/Microsoft.TestPlatform.ObjectModel/Utilities/XmlRunSettingsUtilities.cs:60-114 | Removing a section that replace has just added restores the original document element. |
| RunSettingsUtilities.AnyUriMatches | src/Microsoft.TestPlatform.ObjectModel/Utilities/XmlRunSettingsUtilities.cs:139-148 | The foreach returns true exactly when some selected node's `uri` attribute (empty when missing) equals the uri ignoring case. |
| RunSettingsUtilities.ContainsDataCollector | src/Microsoft.TestPlatform.ObjectModel/Utilities/XmlRunSettingsUtilities.cs:124-149 | A null document, then a null uri, is an ArgumentNull error. Otherwise the result is true exactly when some `/RunSettings/DataCollectionRunSettings/DataCollectors/DataCollector` node has the uri, ignoring case. |
| RunSettingsUtilities.ContainsFakesDataCollector | src/Microsoft.TestPlatform.ObjectModel/Utilities/XmlRunSettingsUtilities.cs:157-163 | A null document fails with ArgumentNull; otherwise the answer is true exactly when some DataCollector element has the Fakes uri, ignoring case. |
| RunSettingsUtilities.CreateFakesDataCollectorSettings | src/Microsoft.TestPlatform.ObjectModel/Utilities/XmlRunSettingsUtilities.cs:171-182 | The settings carry the Fakes uri, friendly name and assembly-qualified name, and are enabled. |
| RunSettingsUtilities.WithChildSpec | src/Microsoft.TestPlatform.ObjectModel/Utilities/XmlRunSettingsUtilities.cs:470-480 | MoveToChild-or-append leaves a child of that name. When one exists nothing changes; otherwise the old children are kept and an empty child of that name is appended at the end, where it is the first of its name. Attributes and text are kept. |
| RunSettingsUtilities.EnsureCollectorsPathSpec | src/Microsoft.TestPlatform.ObjectModel/Utilities/XmlRunSettingsUtilities.cs:462-481 | After it the DataCollectors path exists. An existing path is left untouched, so a second call changes nothing. Existing collectors are kept, and the document element gains a child only when DataCollectionRunSettings was missing. |
| RunSettingsUtilities.MoveToDataCollectorsNode | src/Microsoft.TestPlatform.ObjectModel/Utilities/XmlRunSettingsUtilities.cs:462-481 | A document element other than RunSettings is an XML error naming RunSettings, and the document is unchanged. Otherwise the missing sections are created and the path to DataCollectors is returned. |
| RunSettingsUtilities.CollectorElement | src/Microsoft.TestPlatform.ObjectModel/Utilities/XmlRunSettingsUtilities.cs:204 | A collector's settings serialize to a DataCollector element whose `uri` attribute is the settings' uri. |
| RunSettingsUtilities.WithCollectorAppendsOne | src/Microsoft.TestPlatform.ObjectModel/Utilities/XmlRunSettingsUtilities.cs:201-208 | Inserting appends exactly that collector's element after the existing collectors, and the DataCollectors path stays where it was. |
| RunSettingsUtilities.InsertedCollectorIsFound | src/Microsoft.TestPlatform.ObjectModel/Utilities/XmlRunSettingsUtilities.cs:124-209 | After a collector is inserted into a RunSettings document, ContainsDataCollector finds its uri. |
| RunSettingsUtilities.InsertedFakesCollectorIsFound | src/Microsoft.TestPlatform.ObjectModel/Utilities/XmlRunSettingsUtilities.cs:157-182 | After the Fakes collector settings are inserted, ContainsFakesDataCollector is true. |
| RunSettingsUtilities.InsertDataCollectorsNode | src/Microsoft.TestPlatform.ObjectModel/Utilities/XmlRunSettingsUtilities.cs:189-209 | A null document, then null settings, is an ArgumentNull error. A document element other than RunSettings is an XML error. Both errors leave the document unchanged. Otherwise the document becomes `WithCollector` of the old one. |
| RunSettingsUtilities.DefaultRunSettingsShape | src/Microsoft.TestPlatform.ObjectModel/Utilities/XmlRunSettingsUtilities.cs:256-263 | The default document holds the DataCollectors path at the first child of the first child, with no collectors. Ensuring the path leaves it unchanged, and it contains no data collector, whatever the uri. |
| RunSettingsUtilities.CreateDefaultRunSettings | src/Microsoft.TestPlatform.ObjectModel/Utilities/XmlRunSettingsUtilities.cs:254-282 | A new document equal to `RunSettings/DataCollectionRunSettings/DataCollectors`. |
| RunSettingsUtilities.ScanToSection | src/Microsoft.TestPlatform.ObjectModel/Utilities/XmlRunSettingsUtilities.cs:438-446 | The skip loop stops at the first section whose name matches, or at the end: exactly `FirstChildNamed`. |
| RunSettingsUtilities.GetNodeValue | src/Microsoft.TestPlatform.ObjectModel/Utilities/XmlRunSettingsUtilities.cs:425-455 | A blank input gives the default. Otherwise the parser's value for the first section matching the name, ignoring case, or the default when there is none. |
| RunSettingsUtilities.GetRunConfigurationNode | src/Microsoft.TestPlatform.ObjectModel/Utilities/XmlRunSettingsUtilities.cs:216-226 | The RunConfiguration read from that section, or the default configuration when none is read. |
| RunSettingsUtilities.GetTestRunParameters | src/Microsoft.TestPlatform.ObjectModel/Utilities/XmlRunSettingsUtilities.cs:234-244 | The parameters read from the TestRunParameters section, or an empty dictionary when none are read. |
| RunSettingsUtilities.GetDataCollectionRunSettings | src/Microsoft.TestPlatform.ObjectModel/Utilities/XmlRunSettingsUtilities.cs:325-358 | A blank input gives null. Otherwise the settings read from the first section named DataCollectionRunSettings under a case-sensitive name test, or null when there is none. |
| RunSettingsUtilities.GetInProcDataCollectionRunSettings | src/Microsoft.TestPlatform.ObjectModel/Utilities/XmlRunSettingsUtilities.cs:369-403 | The same scan for InProcDataCollectionRunSettings. |
| RunSettingsUtilities.IsDataCollectionEnabled | src/Microsoft.TestPlatform.ObjectModel/Utilities/XmlRunSettingsUtilities.cs:289-299 | True exactly when the section is read and its collection is enabled. |
| RunSettingsUtilities.IsInProcDataCollectionEnabled | src/Microsoft.TestPlatform.ObjectModel/Utilities/XmlRunSettingsUtilities.cs:306-316 | True exactly when the in-process section is read and its collection is enabled. |
| RunSettingsUtilities.IgnoreCaseFindsNoLater | src/Microsoft.TestPlatform.ObjectModel/Utilities/XmlRunSettingsUtilities.cs:342-439 | The case-insensitive scan of GetNodeValue finds every section the case-sensitive scans find, at the same position or earlier. |
| AppDomainIsolation.FirstIn | src/Microsoft.TestPlatform.CrossPlatEngine/Client/AppDomainManagerFactory.cs:175 | `Descendants(name).FirstOrDefault()` is the path of an element that passes the test. There is none exactly when no element at any depth passes. |
| AppDomainIsolation.FirstInIsFirstSelected | src/Microsoft.TestPlatform.CrossPlatEngine/Client/AppDomainManagerFactory.cs:175 | The element FirstOrDefault finds is the first that `Descendants(name)` yields, i.e. the first in document order. |
| AppDomainIsolation.SelectSpec | src/Microsoft.TestPlatform.CrossPlatEngine/Client/AppDomainManagerFactory.cs:213 | Every element `Descendants(name)` selects passes the test. The selection is empty exactly when no element does. |
| AppDomainIsolation.SelectComplete | src/Microsoft.TestPlatform.CrossPlatEngine/Client/AppDomainManagerFactory.cs:213 | Every element at any depth that passes the test is among those `Descendants(name)` selects. |
| AppDomainIsolation.Prune | src/Microsoft.TestPlatform.CrossPlatEngine/Client/AppDomainManagerFactory.cs:179 | After `Descendants(name).Remove()` no element at any depth passes the test, and the forest is no longer; a forest with no match is unchanged. |
| AppDomainIsolation.PruneKeeps | src/Microsoft.TestPlatform.CrossPlatEngine/Client/AppDomainManagerFactory.cs:179 | Remove keeps exactly the elements that do not pass the test, each with its own matching descendants removed: each such element is kept, and nothing else is left. |
| AppDomainIsolation.PruneAppend | src/Microsoft.TestPlatform.CrossPlatEngine/Client/AppDomainManagerFactory.cs:179 | Remove works element by element: on a concatenation it is the concatenation of the results, so it keeps the order of the elements it keeps. |
| AppDomainIsolation.XDocument.RemoveAll | src/Microsoft.TestPlatform.CrossPlatEngine/Client/AppDomainManagerFactory.cs:179 | The document's tree is the pruned tree. It has no root left when the root itself passed the test. |
| AppDomainIsolation.XDocument.AddAt | src/Microsoft.TestPlatform.CrossPlatEngine/Client/AppDomainManagerFactory.cs:180 | The elements are appended as copies after the last child of the element at the path. |
| AppDomainIsolation.MergeApplicationConfigFiles | src/Microsoft.TestPlatform.CrossPlatEngine/Client/AppDomainManagerFactory.cs:169-225 | The merged document is `MergedConfig(user, host)`. It fails with a null reference when the user's root itself is a startup element and the host has a startup. |
| AppDomainIsolation.StartupMergeSpec | src/Microsoft.TestPlatform.CrossPlatEngine/Client/AppDomainManagerFactory.cs:169-181 | The user's configuration is the base. When the host has a startup, the root keeps its name, attributes and text, its children are the user's with every startup removed, followed by the host's first startup; a user configuration without startup keeps all its children. A user root that is itself a startup fails. |
| AppDomainIsolation.RuntimeAddedWithoutProbing | src/Microsoft.TestPlatform.CrossPlatEngine/Client/AppDomainManagerFactory.cs:184-196 | Without a runtime of the user's, the host's first runtime, with every probing element removed, is appended at the end of the root. |
| AppDomainIsolation.AssemblyBindingMergeSpec | src/Microsoft.TestPlatform.CrossPlatEngine/Client/AppDomainManagerFactory.cs:197-220 | With runtimes on both sides and a host assemblyBinding: a user configuration without assemblyBinding gets the host's appended under its first runtime; otherwise every dependentAssembly of the host's binding, at any depth, follows the user's children in the user's first assemblyBinding. The root keeps its name, attributes and text, and every element off the path to the target is unchanged. |
| AppDomainIsolation.GetConfigFile | src/Microsoft.TestPlatform.CrossPlatEngine/Client/AppDomainManagerFactory.cs:148-167 | `<source>.config` when it exists, else `<folder>\App.Config` when that exists. Nothing exactly when neither exists. A file that is found is never empty. |
| AppDomainIsolation.AppDomainSetup.constructor | src/Microsoft.TestPlatform.CrossPlatEngine/Client/AppDomainManagerFactory.cs:107 | A new setup has no configuration file. |
| AppDomainIsolation.SetConfigurationFile | src/Microsoft.TestPlatform.CrossPlatEngine/Client/AppDomainManagerFactory.cs:121-146 | With no user configuration file, the host's file is used unchanged and nothing is merged. With one, the two loaded documents are merged. When the merge succeeds the temporary file becomes the configuration file; a failed merge leaves the setup as it was. |
| AppDomainIsolation.AdapterPathsSpec | src/Microsoft.TestPlatform.CrossPlatEngine/Client/AppDomainManagerFactory.cs:233 | An extension is kept exactly when it ends with `TestAdapter.dll` ignoring case, and nothing is added. |
| AppDomainIsolation.ExtensionList | src/Microsoft.TestPlatform.CrossPlatEngine/Client/AppDomainManagerFactory.cs:229-236 | The list is the adapter extensions, or none when the cache has no list, followed by the default extension paths. |
| AppDomainIsolation.AppDomainExecutionManagerInvoker.constructor | src/Microsoft.TestPlatform.CrossPlatEngine/Client/AppDomainManagerFactory.cs:44-53 | The invoker holds a fresh worker that is not initialized and has made no calls. |
| AppDomainIsolation.AppDomainExecutionManagerInvoker.Initialize | src/Microsoft.TestPlatform.CrossPlatEngine/Client/AppDomainManagerFactory.cs:227-239 | The worker is initialized with that extension list exactly when it was not initialized before and the list is non-empty. Otherwise it is left alone. |
| AppDomainIsolation.AppDomainExecutionManagerInvoker.StartTestRun | src/Microsoft.TestPlatform.CrossPlatEngine/Client/AppDomainManagerFactory.cs:241-246 | It returns 0 and forwards the request to the worker's StartTestRun. |
| AppDomainIsolation.AppDomainExecutionManagerInvoker.Cancel | src/Microsoft.TestPlatform.CrossPlatEngine/Client/AppDomainManagerFactory.cs:248-251 | The call is forwarded to the worker: one cancel. |
| AppDomainIsolation.AppDomainExecutionManagerInvoker.Abort | src/Microsoft.TestPlatform.CrossPlatEngine/Client/AppDomainManagerFactory.cs:253-256 | The call is forwarded to the worker: one abort. |
| AppDomainIsolation.AppDomainExecutionManagerInvoker.Close | src/Microsoft.TestPlatform.CrossPlatEngine/Client/AppDomainManagerFactory.cs:258-260 | The worker is left unchanged. |
| AppDomainIsolation.SimpleName | src/Microsoft.TestPlatform.CrossPlatEngine/Client/AppDomainManagerFactory.cs:281 | The simple name is the full name up to its first comma, or all of it when there is none: a comma-free prefix followed by a comma or the end. |
| AppDomainIsolation.ProbeFiles | src/Microsoft.TestPlatform.CrossPlatEngine/Client/AppDomainManagerFactory.cs:299-301 | One probed file per resolver directory, in order: the file for directory i is `Path.Combine(dir, name) + ".dll"`. |
| AppDomainIsolation.ProbesSpec | src/Microsoft.TestPlatform.CrossPlatEngine/Client/AppDomainManagerFactory.cs:299-314 | The files probed are a prefix of the candidates, and every probe but the last fails. Probing stops early only at a successful load, which is the result. No result means every candidate was missing or failed to load. |
| AppDomainIsolation.CustomAssemblyResolver.constructor | src/Microsoft.TestPlatform.CrossPlatEngine/Client/AppDomainManagerFactory.cs:272-277 | The resolver directories are the platform path and its `Extensions` subdirectory. Nothing is resolved or probed yet. |
| AppDomainIsolation.CustomAssemblyResolver.CurrentDomainAssemblyResolve | src/Microsoft.TestPlatform.CrossPlatEngine/Client/AppDomainManagerFactory.cs:279-329 | A name seen before gets its remembered result, possibly none, without any probing. A new name gets the first successful load over the two directories, or none. That result is remembered for the name, and only those probes are made; while they are made, the name is recorded with none (the call to ProbeDirectories needs it). |
| AppDomainIsolation.CustomAssemblyResolver.ProbeDirectories | src/Microsoft.TestPlatform.CrossPlatEngine/Client/AppDomainManagerFactory.cs:295-314 | Entered with none recorded for the name, the foreach returns the first successful load of the simple name and checks existence of exactly the files up to it. The remembered results, and so the none recorded for the name, are unchanged throughout. |

## Left out

- Parsing and serialization of XML text are left out. Documents are element trees. A settings string is null, empty, white space, or a well-formed document (`SettingsXml`). `OuterXml`, `Save` and `XDocument.Load` are not modelled.
- Text that is not well-formed XML is not modelled, except white space, which is an XML error.
- A document loaded without a document element is not modelled.
- Namespaces of run-settings elements are not modelled; their names are qualified strings.
- `TestRunSettings.ToXml` is the `xml` field of `SettingsSection`. Its name is carried separately, so that the section is found by `settingsNode.Name`.
- `DataCollectorSettings.ToXml` is modelled as a DataCollector element. It carries only the uri, assemblyQualifiedName and friendlyName attributes; configuration and the enabled flag are not serialized.
- `DataCollectionRunSettings.FromXml`, `RunConfiguration.FromXml` and `TestRunParameters.FromXml` are not part of this model. They are parameters (`fromXml`, `nodeParser`); `None` stands for a null result.
- `XmlReaderUtilities.ReadToRootNode`, `ReadToNextElement` and `SkipToNextElement` are not part of this model. The reader scans are taken to visit the direct children of the document element in order.
- The constants `RunSettings`, `DataCollectionRunSettings`, `DataCollectors`, `RunConfiguration`, `TestRunParameters` and `InProcDataCollectionRunSettings` belong to a Constants class that is not part of this model. They are written out as their section names.
- OSArchitecture: the platform's architecture is a parameter, because `PlatformEnvironment` is not part of this model.
- ReaderSettings and ThrowOnHasAttributes are reader configuration and error reporting inside the reader code that is left out above.
- Case-insensitive comparison folds ASCII letters only. Culture and Unicode case mapping are not modelled.
- The concurrency of parallel execution is left out. `Task.Run` and its continuation are one sequential step, and a start that faults is an input (`faults`). Interleavings, `Interlocked`, and completions sent by a running worker are left out.
- RefeedUntilExhausted: it models the re-feed protocol that the activation step's documentation describes (each finished worker triggers the next activation), not code that runs. In the code as written nothing reaches it: the activation step is private, its only caller is the initial loop of StartTestRun, and HandlePartialRunComplete, which a finished worker's handler reports to, throws NotImplementedException. ParallelRunEventsHandler itself is not part of this model.
- A worker whose construction throws is not modelled. `new AppDomainExecutionManagerInvoker(testSource)` runs before the task starts; it can throw, for example the NullReference of the configuration merge that `MergedConfig` returns as `Err`, and that exception escapes StartTestRun after the unit was taken from the enumerator. In the model the activation cannot fail before the start.
- The worker's `StartTestRun` for specific sources passes `AdapterSourceMap` to the engine. `RunCall` carries the criteria's list of sources instead, since the adapter-to-sources map is not modelled.
- The manager's Abort, Cancel, Close and HandlePartialRunComplete throw NotImplementedException, so they are not modelled. Its Initialize does nothing and is not modelled either.
- The IsInitialized getter of AppDomainExecutionManagerInvoker throws NotImplementedException. The manager's `!IsInitialized` check is modelled as true for a freshly created worker. Its Initialize always runs.
- The base class ParallelInIsolationOperationManager's `TryFetchNextSource`, `AddManager` and `GetHandlerForGivenManager` are modelled from their use.
- Dispose and UpdateParallelLevel of the base class throw NotImplementedException, so they are not modelled.
- The dictionary's `Values` are taken in insertion order, which is what .NET gives for a dictionary without removals.
- The JSON serialization between the invoker and the worker is left out. The worker receives the criteria as values.
- App-domain creation (`CreateNewAppDomain`, `CreateObject`, `CreateInstanceFromAndUnwrap`) and `UnloadAppDomain` are left out. The invoker's constructor makes a fresh worker, and the resolver is a separate object.
- Trace and event-source calls (`EqtTrace`, `TestPlatformEventSource`) are left out.
- The file system is a parameter (`fileExists`, `load`, `loadFrom`), and so is the temporary file name.
- `Path.GetDirectoryName` is done by the caller; the folder is an argument.
- `Path.Combine` is modelled for a second part that is not rooted.
- SimpleName: it does not model `AssemblyName` parsing in full (quoting, escapes, white space trimming). It takes the text before the first comma.
- MergeApplicationConfigFiles: removing the probing elements also changes the host's document in place in the source. The model does not capture that side effect, because the host document is not used again.
- The lock in the assembly resolver is left out.
- A re-entrant resolution is not modelled as a nested call. The entry holds none while the directories are probed, and the framing of `ProbeDirectories` keeps it.
- TestPluginCache is not part of this model. Its `PathToExtensions` (possibly null) and `DefaultExtensionPaths` are parameters.
- `TestAdapterEndsWithPattern` is taken as `TestAdapter.dll`.
