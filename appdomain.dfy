/**
  AppDomainExecutionManagerInvoker and CustomAssemblyResolver: the choice of
  the configuration file for the test app domain, the merge of the user's
  configuration with the test host's (LINQ to XML), the extension list passed
  to the worker, and the memoizing assembly resolver.
 */
module AppDomainIsolation {
  import opened ObjectModel
  import opened Text
  import opened XmlTree
  import opened InAppDomainWorker
  import opened Sequences

  // ---------------------------------------------------------------- LINQ to XML trees

  /** XName: a namespace and a local name; a plain string converts to the empty namespace. */
  datatype XName = XName(namespaceName: string, localName: string)

  type XElement = Node<XName>

  const XmlNamespace := "urn:schemas-microsoft-com:asm.v1"

  /** The element selector of a Descendants query. */
  datatype NameTest = Named(xname: XName) | LocalNamed(local: string)

  predicate Matches(e: XElement, t: NameTest)
  {
    match t
    case Named(n) => e.name == n
    case LocalNamed(l) => e.name.localName == l
  }

  const StartupTest := Named(XName("", "startup"))
  const RuntimeTest := Named(XName("", "runtime"))
  const ProbingTest := LocalNamed("probing")
  const AssemblyBindingTest := Named(XName(XmlNamespace, "assemblyBinding"))
  const DependentAssemblyTest := Named(XName(XmlNamespace, "dependentAssembly"))

  /** No element of the forest `cs`, at any depth, passes the test. */
  predicate NoMatchIn(cs: seq<XElement>, t: NameTest)
    decreases cs
  {
    forall i :: 0 <= i < |cs| ==> !Matches(cs[i], t) && NoMatchIn(cs[i].children, t)
  }

  predicate ValidIn(cs: seq<XElement>, p: seq<nat>)
  {
    |p| > 0 && p[0] < |cs| && ValidPath(cs[p[0]], p[1..])
  }

  function AtIn(cs: seq<XElement>, p: seq<nat>): XElement
    requires ValidIn(cs, p)
  {
    At(cs[p[0]], p[1..])
  }

  /** The path of the first element of the forest, in document order, that passes the test. */
  function FirstIn(cs: seq<XElement>, t: NameTest): (r: Option<seq<nat>>)
    ensures r.Some? ==> ValidIn(cs, r.value) && Matches(AtIn(cs, r.value), t)
    ensures r.None? <==> NoMatchIn(cs, t)
    decreases cs
  {
    if cs == [] then None
    else if Matches(cs[0], t) then Some([0])
    else match FirstIn(cs[0].children, t)
      case Some(p) =>
        assert ([0] + p)[1..] == p;
        Some([0] + p)
      case None =>
        match FirstIn(cs[1..], t)
        case Some(p) =>
          assert ([p[0] + 1] + p[1..])[1..] == p[1..];
          Some([p[0] + 1] + p[1..])
        case None =>
          assert forall i :: 1 <= i < |cs| ==> cs[i] == cs[1..][i - 1];
          None
  }

  /** Descendants(t) of the forest: every element passing the test, in document order. */
  function Select(cs: seq<XElement>, t: NameTest): seq<XElement>
    decreases cs
  {
    if cs == [] then []
    else (if Matches(cs[0], t) then [cs[0]] else []) + Select(cs[0].children, t) + Select(cs[1..], t)
  }

  lemma {:induction false} SelectSpec(cs: seq<XElement>, t: NameTest)
    ensures forall e :: e in Select(cs, t) ==> Matches(e, t)
    ensures Select(cs, t) == [] <==> NoMatchIn(cs, t)
    decreases cs
  {
    if cs != [] {
      SelectSpec(cs[0].children, t);
      SelectSpec(cs[1..], t);
      if NoMatchIn(cs, t) {
        assert forall i :: 1 <= i < |cs| ==> cs[i] == cs[1..][i - 1];
      }
      if Select(cs, t) == [] {
        forall i | 0 <= i < |cs| ensures !Matches(cs[i], t) && NoMatchIn(cs[i].children, t) {
          if i > 0 { assert cs[i] == cs[1..][i - 1]; }
        }
      }
    }
  }

  /**
    Every element of the forest at path `p` that passes the test is selected:
    Descendants misses none.
   */
  lemma {:induction false} SelectComplete(cs: seq<XElement>, t: NameTest, p: seq<nat>)
    requires ValidIn(cs, p) && Matches(AtIn(cs, p), t)
    ensures AtIn(cs, p) in Select(cs, t)
    decreases cs
  {
    if p[0] == 0 {
      if |p| > 1 {
        var q := p[1..];
        assert ValidIn(cs[0].children, q) && AtIn(cs[0].children, q) == AtIn(cs, p);
        SelectComplete(cs[0].children, t, q);
      }
    } else {
      var q := [p[0] - 1] + p[1..];
      assert q[1..] == p[1..] && cs[1..][q[0]] == cs[p[0]];
      SelectComplete(cs[1..], t, q);
    }
  }

  /** The path FirstIn finds leads to the first element Descendants yields: FirstOrDefault takes the first in document order. */
  lemma {:induction false} FirstInIsFirstSelected(cs: seq<XElement>, t: NameTest)
    requires FirstIn(cs, t).Some?
    ensures Select(cs, t) != [] && AtIn(cs, FirstIn(cs, t).value) == Select(cs, t)[0]
    decreases cs
  {
    if !Matches(cs[0], t) {
      match FirstIn(cs[0].children, t)
      case Some(p) =>
        FirstInIsFirstSelected(cs[0].children, t);
        assert ([0] + p)[1..] == p;
      case None =>
        SelectSpec(cs[0].children, t);
        var p := FirstIn(cs[1..], t).value;
        FirstInIsFirstSelected(cs[1..], t);
        assert ([p[0] + 1] + p[1..])[1..] == p[1..];
    }
  }

  /** Descendants(t).Remove(): the forest with every element passing the test removed together with its subtree. */
  function Prune(cs: seq<XElement>, t: NameTest): (r: seq<XElement>)
    ensures NoMatchIn(r, t)
    ensures |r| <= |cs|
    ensures NoMatchIn(cs, t) ==> r == cs
    decreases cs
  {
    if cs == [] then []
    else
      assert NoMatchIn(cs, t) ==> NoMatchIn(cs[1..], t) by {
        assert forall i :: 1 <= i < |cs| ==> cs[1..][i - 1] == cs[i];
      }
      if Matches(cs[0], t) then Prune(cs[1..], t)
      else
        var rest := Prune(cs[1..], t);
        var head := cs[0].(children := Prune(cs[0].children, t));
        assert forall i :: 1 <= i < |[head] + rest| ==> ([head] + rest)[i] == rest[i - 1];
        assert NoMatchIn(cs, t) ==> [head] + rest == [cs[0]] + cs[1..];
        [head] + rest
  }

  /** The element `e` with every descendant passing the test removed: what Remove leaves of an element that stays. */
  function Pruned(e: XElement, t: NameTest): XElement
  {
    e.(children := Prune(e.children, t))
  }

  /**
    What Remove keeps: exactly the elements of the forest that do not pass the
    test, each with its own matching descendants removed, and in their order.
   */
  lemma {:induction false} PruneKeeps(cs: seq<XElement>, t: NameTest)
    ensures forall i :: 0 <= i < |cs| && !Matches(cs[i], t) ==> Pruned(cs[i], t) in Prune(cs, t)
    ensures forall e :: e in Prune(cs, t) ==> exists i :: 0 <= i < |cs| && !Matches(cs[i], t) && e == Pruned(cs[i], t)
    decreases cs
  {
    if cs != [] {
      PruneKeeps(cs[1..], t);
      assert forall i :: 1 <= i < |cs| ==> cs[1..][i - 1] == cs[i];
    }
  }

  /** Remove works element by element, so it keeps the order of what it keeps. */
  lemma {:induction false} PruneAppend(a: seq<XElement>, b: seq<XElement>, t: NameTest)
    ensures Prune(a + b, t) == Prune(a, t) + Prune(b, t)
    decreases a
  {
    if a != [] {
      assert (a + b)[0] == a[0] && (a + b)[1..] == a[1..] + b;
      PruneAppend(a[1..], b, t);
    } else {
      assert a + b == b;
    }
  }

  // ---------------------------------------------------------------- MergeApplicationConfigFiles

  /** An XDocument: its root element, absent once the root has been removed. */
  class XDocument {
    var root: Option<XElement>

    constructor (root: XElement)
      ensures this.root == Some(root)
    {
      this.root := Some(root);
    }

    /** Descendants(t).Remove() on the document (the root is among its descendants). */
    method RemoveAll(t: NameTest)
      requires root.Some?
      modifies this
      ensures var pr := Prune([old(root).value], t);
        root == if pr == [] then None else Some(pr[0])
    {
      var pr := Prune([root.value], t);
      root := if pr == [] then None else Some(pr[0]);
    }

    /** Add(xs) on the element at `p` below the root; the elements are copied. */
    method AddAt(p: seq<nat>, xs: seq<XElement>)
      requires root.Some? && ValidPath(root.value, p)
      modifies this
      ensures root == Some(AppendAt(old(root).value, p, xs))
    {
      root := Some(AppendAt(root.value, p, xs));
    }
  }

  /** The user's configuration with the host's first startup in place of all of its own (Err: the user's root itself is a startup element). */
  function WithHostStartup(user: XElement, host: XElement): Result<XElement>
  {
    match FirstIn([host], StartupTest)
    case None => Ok(user)
    case Some(p) =>
      var pr := Prune([user], StartupTest);
      if pr == [] then Err(NullReference)
      else Ok(pr[0].(children := pr[0].children + [AtIn([host], p)]))
  }

  /** The host's runtime element without any of its probing descendants. */
  function WithoutProbing(runtime: XElement): XElement
  {
    runtime.(children := Prune(runtime.children, ProbingTest))
  }

  /** The runtime part of the merge, applied to the merged document `m`. */
  function WithHostRuntime(m: XElement, host: XElement): XElement
  {
    match FirstIn([host], RuntimeTest)
    case None => m
    case Some(hp) =>
      var hostRuntime := AtIn([host], hp);
      match FirstIn([m], RuntimeTest)
      case None => m.(children := m.children + [WithoutProbing(hostRuntime)])
      case Some(mp) =>
        match FirstIn(hostRuntime.children, AssemblyBindingTest)
        case None => m
        case Some(hb) =>
          var hostBinding := AtIn(hostRuntime.children, hb);
          match FirstIn([m], AssemblyBindingTest)
          case None => AppendAt(m, mp[1..], [hostBinding])
          case Some(mb) => AppendAt(m, mb[1..], Select(hostBinding.children, DependentAssemblyTest))
  }

  /** The merged configuration: the user's, with the host's startup and runtime merged in. */
  function MergedConfig(user: XElement, host: XElement): Result<XElement>
  {
    match WithHostStartup(user, host)
    case Err(e) => Err(e)
    case Ok(m) => Ok(WithHostRuntime(m, host))
  }

  /** MergeApplicationConfigFiles on a copy of the user's document. */
  method MergeApplicationConfigFiles(userConfigDoc: XElement, testHostConfigDoc: XElement) returns (r: Result<XElement>)
    ensures r == MergedConfig(userConfigDoc, testHostConfigDoc)
  {
    var mergedDoc := new XDocument(userConfigDoc);

    var startupPath := FirstIn([testHostConfigDoc], StartupTest);
    if startupPath.Some? {
      var startupNode := AtIn([testHostConfigDoc], startupPath.value);
      mergedDoc.RemoveAll(StartupTest);
      if mergedDoc.root.None? {
        return Err(NullReference);
      }
      mergedDoc.AddAt([], [startupNode]);
    }
    assert WithHostStartup(userConfigDoc, testHostConfigDoc) == Ok(mergedDoc.root.value);

    var runtimePath := FirstIn([testHostConfigDoc], RuntimeTest);
    if runtimePath.Some? {
      var runtimeTestHostNode := AtIn([testHostConfigDoc], runtimePath.value);
      var runTimeNode := FirstIn([mergedDoc.root.value], RuntimeTest);
      if runTimeNode.None? {
        mergedDoc.AddAt([], [WithoutProbing(runtimeTestHostNode)]);
      } else {
        var mergedDocAssemblyBindingNode := FirstIn([mergedDoc.root.value], AssemblyBindingTest);
        var testHostAssemblyBindingNode := FirstIn(runtimeTestHostNode.children, AssemblyBindingTest);
        if testHostAssemblyBindingNode.Some? {
          var hostBinding := AtIn(runtimeTestHostNode.children, testHostAssemblyBindingNode.value);
          if mergedDocAssemblyBindingNode.None? {
            mergedDoc.AddAt(runTimeNode.value[1..], [hostBinding]);
          } else {
            var redirections := Select(hostBinding.children, DependentAssemblyTest);
            mergedDoc.AddAt(mergedDocAssemblyBindingNode.value[1..], redirections);
          }
        }
      }
    }
    r := Ok(mergedDoc.root.value);
  }

  /**
    The user's configuration is the base: a host startup replaces every startup
    of the user's and becomes the root's last child, everything else of the
    user's is kept, and the root keeps its name, attributes and text; a user
    root that is itself a startup element fails.
   */
  lemma StartupMergeSpec(user: XElement, host: XElement)
    requires FirstIn([host], StartupTest).Some?
    ensures Matches(user, StartupTest) ==> WithHostStartup(user, host) == Err(NullReference)
    ensures !Matches(user, StartupTest) ==>
      var m := WithHostStartup(user, host);
      var hostStartup := AtIn([host], FirstIn([host], StartupTest).value);
      m.Ok? && m.value.name == user.name && m.value.attributes == user.attributes && m.value.text == user.text &&
      m.value.children == Prune(user.children, StartupTest) + [hostStartup] &&
      NoMatchIn(m.value.children[..|m.value.children| - 1], StartupTest) &&
      (NoMatchIn(user.children, StartupTest) ==> m.value.children == user.children + [hostStartup])
  {
    if !Matches(user, StartupTest) {
      var pr := Prune([user], StartupTest);
      assert pr == [user.(children := Prune(user.children, StartupTest))];
      var m := WithHostStartup(user, host).value;
      assert m.children[..|m.children| - 1] == Prune(user.children, StartupTest);
    }
  }

  /** Without a runtime of the user's, the host's runtime is added at the end of the root, with no probing element left in it. */
  lemma RuntimeAddedWithoutProbing(m: XElement, host: XElement)
    requires FirstIn([host], RuntimeTest).Some? && FirstIn([m], RuntimeTest).None?
    ensures var hostRuntime := AtIn([host], FirstIn([host], RuntimeTest).value);
      WithHostRuntime(m, host).children == m.children + [WithoutProbing(hostRuntime)] &&
      WithoutProbing(hostRuntime).name == XName("", "runtime") &&
      NoMatchIn(WithoutProbing(hostRuntime).children, ProbingTest)
  {
  }

  /**
    With runtimes on both sides and an assemblyBinding in the host's runtime:
    a user configuration without assemblyBinding gets the host's under its
    first runtime; otherwise every dependentAssembly element of the host's
    binding follows the user's entries in the user's first assemblyBinding.
    Nothing off the path to that element changes.
   */
  lemma AssemblyBindingMergeSpec(m: XElement, host: XElement)
    requires FirstIn([host], RuntimeTest).Some? && FirstIn([m], RuntimeTest).Some?
    requires FirstIn(AtIn([host], FirstIn([host], RuntimeTest).value).children, AssemblyBindingTest).Some?
    ensures var hostRuntime := AtIn([host], FirstIn([host], RuntimeTest).value);
      var hostBinding := AtIn(hostRuntime.children, FirstIn(hostRuntime.children, AssemblyBindingTest).value);
      var r := WithHostRuntime(m, host);
      var mp := FirstIn([m], RuntimeTest).value;
      var target := if FirstIn([m], AssemblyBindingTest).None? then mp[1..] else FirstIn([m], AssemblyBindingTest).value[1..];
      r.name == m.name && r.attributes == m.attributes && r.text == m.text &&
      ValidPath(m, target) && ValidPath(r, target) &&
      (forall q :: ValidPath(m, q) && Diverges(target, q) ==> ValidPath(r, q) && At(r, q) == At(m, q)) &&
      (FirstIn([m], AssemblyBindingTest).None? ==>
        At(r, target).name == XName("", "runtime") &&
        At(r, target).children == At(m, target).children + [hostBinding]) &&
      (FirstIn([m], AssemblyBindingTest).Some? ==>
        At(r, target).name == XName(XmlNamespace, "assemblyBinding") &&
        At(r, target).children == At(m, target).children + Select(hostBinding.children, DependentAssemblyTest) &&
        (forall e :: e in Select(hostBinding.children, DependentAssemblyTest) ==> e.name == XName(XmlNamespace, "dependentAssembly")) &&
        (forall p :: ValidIn(hostBinding.children, p) && Matches(AtIn(hostBinding.children, p), DependentAssemblyTest) ==>
           AtIn(hostBinding.children, p) in Select(hostBinding.children, DependentAssemblyTest)))
  {
    var hostRuntime := AtIn([host], FirstIn([host], RuntimeTest).value);
    var hostBinding := AtIn(hostRuntime.children, FirstIn(hostRuntime.children, AssemblyBindingTest).value);
    var mp := FirstIn([m], RuntimeTest).value;
    var xs := if FirstIn([m], AssemblyBindingTest).None? then [hostBinding] else Select(hostBinding.children, DependentAssemblyTest);
    var target := if FirstIn([m], AssemblyBindingTest).None? then mp[1..] else FirstIn([m], AssemblyBindingTest).value[1..];
    assert WithHostRuntime(m, host) == AppendAt(m, target, xs);
    AppendAtSpec(m, target, xs);
    forall q | ValidPath(m, q) && Diverges(target, q)
      ensures ValidPath(AppendAt(m, target, xs), q) && At(AppendAt(m, target, xs), q) == At(m, q)
    {
      AppendAtFrame(m, target, xs, q);
    }
    if FirstIn([m], AssemblyBindingTest).Some? {
      SelectSpec(hostBinding.children, DependentAssemblyTest);
      forall p | ValidIn(hostBinding.children, p) && Matches(AtIn(hostBinding.children, p), DependentAssemblyTest)
        ensures AtIn(hostBinding.children, p) in Select(hostBinding.children, DependentAssemblyTest)
      {
        SelectComplete(hostBinding.children, DependentAssemblyTest, p);
      }
    }
  }

  // ---------------------------------------------------------------- the configuration file of the app domain

  /** GetConfigFile: `<source>.config` if it exists, else `<folder>/App.Config` if that exists, else nothing. */
  function GetConfigFile(testSource: string, testSourceFolder: string, fileExists: string -> bool): (configFile: Option<string>)
    ensures fileExists(testSource + ".config") ==> configFile == Some(testSource + ".config")
    ensures !fileExists(testSource + ".config") && fileExists(PathCombine(testSourceFolder, "App.Config")) ==>
      configFile == Some(PathCombine(testSourceFolder, "App.Config"))
    ensures configFile.None? <==>
      !fileExists(testSource + ".config") && !fileExists(PathCombine(testSourceFolder, "App.Config"))
    ensures configFile.Some? ==> configFile.value != ""
  {
    if fileExists(testSource + ".config") then Some(testSource + ".config")
    else
      var netAppConfigFile := PathCombine(testSourceFolder, "App.Config");
      if fileExists(netAppConfigFile) then Some(netAppConfigFile) else None
  }

  /** The app domain setup, with the configuration file it is given. */
  class AppDomainSetup {
    var configurationFile: Option<string>

    constructor ()
      ensures configurationFile.None?
    {
      configurationFile := None;
    }
  }

  /**
    SetConfigurationFile: with a user configuration file, the merge of it with
    the host's, saved to `tempFileName`, becomes the configuration file; without
    one, the host's configuration file is used unchanged. The documents are
    those `load` reads from the given paths; the merged document is returned.
   */
  method SetConfigurationFile(appDomainSetup: AppDomainSetup, testSource: string, testSourceFolder: string,
                              hostAppConfigFile: string, fileExists: string -> bool, load: string -> XElement,
                              tempFileName: string)
    returns (merged: Option<Result<XElement>>)
    modifies appDomainSetup
    ensures GetConfigFile(testSource, testSourceFolder, fileExists).None? ==>
      merged.None? && appDomainSetup.configurationFile == Some(hostAppConfigFile)
    ensures GetConfigFile(testSource, testSourceFolder, fileExists).Some? ==>
      var userConfigFile := GetConfigFile(testSource, testSourceFolder, fileExists).value;
      merged == Some(MergedConfig(load(userConfigFile), load(hostAppConfigFile))) &&
      appDomainSetup.configurationFile == (if merged.value.Ok? then Some(tempFileName) else old(appDomainSetup.configurationFile))
  {
    var userConfigFile := GetConfigFile(testSource, testSourceFolder, fileExists);
    if userConfigFile.Some? && userConfigFile.value != "" {
      var userConfigDoc := load(userConfigFile.value);
      var testHostConfigDoc := load(hostAppConfigFile);
      var mergedConfigDocument := MergeApplicationConfigFiles(userConfigDoc, testHostConfigDoc);
      merged := Some(mergedConfigDocument);
      if mergedConfigDocument.Ok? {
        appDomainSetup.configurationFile := Some(tempFileName);
      }
    } else {
      merged := None;
      appDomainSetup.configurationFile := Some(hostAppConfigFile);
    }
  }

  // ---------------------------------------------------------------- the invoker

  const TestAdapterEndsWithPattern := "TestAdapter.dll"

  /** The entries of `paths` that name a test adapter, in order. */
  function AdapterPaths(paths: seq<string>): seq<string>
  {
    if paths == [] then []
    else (if EndsWithIgnoreCase(paths[0], TestAdapterEndsWithPattern) then [paths[0]] else []) + AdapterPaths(paths[1..])
  }

  /** An entry is kept exactly when it ends with the adapter pattern ignoring case, and nothing is added. */
  lemma {:induction false} AdapterPathsSpec(paths: seq<string>)
    ensures forall p :: p in AdapterPaths(paths) <==> p in paths && EndsWithIgnoreCase(p, TestAdapterEndsWithPattern)
    ensures |AdapterPaths(paths)| <= |paths|
  {
    if paths != [] {
      AdapterPathsSpec(paths[1..]);
      assert paths == [paths[0]] + paths[1..];
    }
  }

  /** The extension list Initialize builds: the adapter entries of PathToExtensions, then DefaultExtensionPaths. */
  method ExtensionList(pathToExtensions: Option<seq<string>>, defaultExtensionPaths: seq<string>) returns (extensions: seq<string>)
    ensures extensions == (if pathToExtensions.Some? then AdapterPaths(pathToExtensions.value) else []) + defaultExtensionPaths
  {
    extensions := [];
    if pathToExtensions.Some? {
      var paths := pathToExtensions.value;
      var i := 0;
      while i < |paths|
        invariant 0 <= i <= |paths|
        invariant extensions + AdapterPaths(paths[i..]) == AdapterPaths(paths)
      {
        assert paths[i..][1..] == paths[i + 1..];
        if EndsWithIgnoreCase(paths[i], TestAdapterEndsWithPattern) {
          extensions := extensions + [paths[i]];
        }
        i := i + 1;
      }
    }
    extensions := extensions + defaultExtensionPaths;
  }

  /** AppDomainExecutionManagerInvoker: forwards to the worker created in the app domain. */
  class AppDomainExecutionManagerInvoker {
    const proxyExecutionManagerInvoker: NoIsolationInAppDomain

    constructor ()
      ensures fresh(proxyExecutionManagerInvoker)
      ensures !proxyExecutionManagerInvoker.isInitialized && proxyExecutionManagerInvoker.calls == []
    {
      proxyExecutionManagerInvoker := new NoIsolationInAppDomain();
    }

    /** Initialize: passes the extension list to the worker's Initialize, which initializes only on a first, non-empty list. */
    method Initialize(pathToExtensions: Option<seq<string>>, defaultExtensionPaths: seq<string>)
      modifies proxyExecutionManagerInvoker
      ensures var extensions := (if pathToExtensions.Some? then AdapterPaths(pathToExtensions.value) else []) + defaultExtensionPaths;
        var w := proxyExecutionManagerInvoker;
        (old(w.isInitialized) ==> w.isInitialized && w.calls == old(w.calls)) &&
        (!old(w.isInitialized) ==> (w.isInitialized <==> |extensions| > 0)) &&
        (!old(w.isInitialized) && |extensions| > 0 ==> w.calls == old(w.calls) + [InitializeExtensions(extensions)]) &&
        (!w.isInitialized ==> w.calls == old(w.calls))
    {
      var extensions := ExtensionList(pathToExtensions, defaultExtensionPaths);
      proxyExecutionManagerInvoker.Initialize(Some(extensions));
    }

    method StartTestRun(testRunCriteria: RunCriteria, eventHandler: nat) returns (r: int)
      modifies proxyExecutionManagerInvoker
      ensures r == 0
      ensures var w := proxyExecutionManagerInvoker;
        w.isInitialized == old(w.isInitialized) &&
        w.calls == old(w.calls) + (if old(w.isInitialized) then [] else [InitializeExtensions([])])
                   + [RunCall(testRunCriteria, eventHandler)]
    {
      var _ := proxyExecutionManagerInvoker.StartTestRun(testRunCriteria, eventHandler);
      r := 0;
    }

    method Cancel()
      modifies proxyExecutionManagerInvoker
      ensures proxyExecutionManagerInvoker.calls == old(proxyExecutionManagerInvoker.calls) + [CancelRun]
      ensures proxyExecutionManagerInvoker.isInitialized == old(proxyExecutionManagerInvoker.isInitialized)
    {
      proxyExecutionManagerInvoker.Cancel();
    }

    method Abort()
      modifies proxyExecutionManagerInvoker
      ensures proxyExecutionManagerInvoker.calls == old(proxyExecutionManagerInvoker.calls) + [AbortRun]
      ensures proxyExecutionManagerInvoker.isInitialized == old(proxyExecutionManagerInvoker.isInitialized)
    {
      proxyExecutionManagerInvoker.Abort();
    }

    method Close()
      ensures unchanged(proxyExecutionManagerInvoker)
    {
    }
  }

  // ---------------------------------------------------------------- the assembly resolver

  /** A loaded assembly, known by the file it was loaded from. */
  datatype Assembly = Assembly(location: string)

  /** AssemblyName(fullName).Name, taken as the text before the first comma. */
  function SimpleName(fullName: string): (name: string)
    ensures |name| <= |fullName| && name == fullName[..|name|] && ',' !in name
    ensures |name| == |fullName| || fullName[|name|] == ','
  {
    if fullName == [] || fullName[0] == ',' then []
    else [fullName[0]] + SimpleName(fullName[1..])
  }

  /** The file probed in `dir`: Path.Combine(dir, name) + ".dll". */
  function ProbeFile(dir: string, name: string): string
  {
    PathCombine(dir, name) + ".dll"
  }

  /** The files probed for `name`, one per directory, in order. */
  function ProbeFiles(dirs: seq<string>, name: string): (files: seq<string>)
    ensures |files| == |dirs|
    ensures forall i :: 0 <= i < |dirs| ==> files[i] == ProbeFile(dirs[i], name)
  {
    if dirs == [] then [] else [ProbeFile(dirs[0], name)] + ProbeFiles(dirs[1..], name)
  }

  /** The assembly a probe yields: none when the file is missing or LoadFrom throws. */
  function Loaded(file: string, fileExists: string -> bool, loadFrom: string -> Option<Assembly>): Option<Assembly>
  {
    if fileExists(file) then loadFrom(file) else None
  }

  /** The first successful load over the files, in order. */
  function FirstLoad(files: seq<string>, fileExists: string -> bool, loadFrom: string -> Option<Assembly>): Option<Assembly>
  {
    if files == [] then None
    else if Loaded(files[0], fileExists, loadFrom).Some? then Loaded(files[0], fileExists, loadFrom)
    else FirstLoad(files[1..], fileExists, loadFrom)
  }

  /** The files whose existence is checked: up to and including the first successful load. */
  function Probes(files: seq<string>, fileExists: string -> bool, loadFrom: string -> Option<Assembly>): seq<string>
  {
    if files == [] then []
    else if Loaded(files[0], fileExists, loadFrom).Some? then [files[0]]
    else [files[0]] + Probes(files[1..], fileExists, loadFrom)
  }

  /**
    The probes are a prefix of the files; every probe but the last fails; the
    probing stops early only at a successful load, which is the result; no
    result means every file failed.
   */
  lemma {:induction false} ProbesSpec(files: seq<string>, fileExists: string -> bool, loadFrom: string -> Option<Assembly>)
    ensures var ps := Probes(files, fileExists, loadFrom);
      |ps| <= |files| && ps == files[..|ps|] &&
      (forall i :: 0 <= i < |ps| - 1 ==> Loaded(ps[i], fileExists, loadFrom).None?) &&
      (FirstLoad(files, fileExists, loadFrom).Some? ==>
         ps != [] && Loaded(ps[|ps| - 1], fileExists, loadFrom) == FirstLoad(files, fileExists, loadFrom)) &&
      (FirstLoad(files, fileExists, loadFrom).None? ==>
         ps == files && forall i :: 0 <= i < |files| ==> Loaded(files[i], fileExists, loadFrom).None?)
  {
    if files != [] {
      ProbesSpec(files[1..], fileExists, loadFrom);
      var ps := Probes(files, fileExists, loadFrom);
      if Loaded(files[0], fileExists, loadFrom).None? {
        var rest := Probes(files[1..], fileExists, loadFrom);
        assert ps == [files[0]] + rest;
        assert files[..|ps|] == [files[0]] + files[1..][..|rest|];
        assert forall i :: 1 <= i < |files| ==> files[i] == files[1..][i - 1];
      }
    }
  }

  /** After `i` failed probes, the next successful load ends the probing; if there is none, every file is probed. */
  lemma {:induction false} ProbesAfterFailures(files: seq<string>, i: nat, fileExists: string -> bool, loadFrom: string -> Option<Assembly>)
    requires i <= |files| && forall j :: 0 <= j < i ==> Loaded(files[j], fileExists, loadFrom).None?
    ensures i < |files| && Loaded(files[i], fileExists, loadFrom).Some? ==>
      Probes(files, fileExists, loadFrom) == files[..i + 1] && FirstLoad(files, fileExists, loadFrom) == Loaded(files[i], fileExists, loadFrom)
    ensures i == |files| ==>
      Probes(files, fileExists, loadFrom) == files && FirstLoad(files, fileExists, loadFrom).None?
    decreases i
  {
    if i > 0 {
      assert forall j :: 0 <= j < i - 1 ==> files[1..][j] == files[j + 1];
      ProbesAfterFailures(files[1..], i - 1, fileExists, loadFrom);
      if i < |files| {
        assert files[..i + 1] == [files[0]] + files[1..][..i];
      }
      assert files == [files[0]] + files[1..];
    }
  }

  /** One probe of the loop: the probes so far grow by the next file, and a successful load there ends the probing. */
  lemma ProbeLoopStep(files: seq<string>, i: nat, p0: seq<string>, probed: seq<string>,
                      fileExists: string -> bool, loadFrom: string -> Option<Assembly>)
    requires i < |files| && probed == p0 + files[..i]
    requires forall j :: 0 <= j < i ==> Loaded(files[j], fileExists, loadFrom).None?
    ensures probed + [files[i]] == p0 + files[..i + 1]
    ensures Loaded(files[i], fileExists, loadFrom).Some? ==>
      probed + [files[i]] == p0 + Probes(files, fileExists, loadFrom) &&
      Loaded(files[i], fileExists, loadFrom) == FirstLoad(files, fileExists, loadFrom)
    ensures Loaded(files[i], fileExists, loadFrom).None? ==>
      forall j :: 0 <= j < i + 1 ==> Loaded(files[j], fileExists, loadFrom).None?
  {
    TakeSnoc(files, i);
    ConcatAssoc(p0, files[..i], [files[i]]);
    ProbesAfterFailures(files, i, fileExists, loadFrom);
  }

  /** CustomAssemblyResolver: resolves platform assemblies from its two directories and remembers every outcome. */
  class CustomAssemblyResolver {
    const resolverPaths: seq<string>
    var resolvedAssemblies: map<string, Option<Assembly>>
    /** The File.Exists checks made so far, in order. */
    var probed: seq<string>

    constructor (testPlatformPath: string)
      ensures resolverPaths == [testPlatformPath, PathCombine(testPlatformPath, "Extensions")]
      ensures resolvedAssemblies == map[] && probed == []
    {
      resolverPaths := [testPlatformPath, PathCombine(testPlatformPath, "Extensions")];
      resolvedAssemblies := map[];
      probed := [];
    }

    /**
      CurrentDomain_AssemblyResolve: a name seen before gets its remembered
      result (possibly none) without probing; otherwise none is recorded for it
      while the directories are probed, and the first successful load, or none,
      is recorded and returned.
     */
    method CurrentDomainAssemblyResolve(name: string, fileExists: string -> bool, loadFrom: string -> Option<Assembly>)
      returns (assembly: Option<Assembly>)
      modifies this
      ensures name in old(resolvedAssemblies) ==>
        assembly == old(resolvedAssemblies)[name] &&
        resolvedAssemblies == old(resolvedAssemblies) && probed == old(probed)
      ensures name !in old(resolvedAssemblies) ==>
        var files := ProbeFiles(resolverPaths, SimpleName(name));
        assembly == FirstLoad(files, fileExists, loadFrom) &&
        resolvedAssemblies == old(resolvedAssemblies)[name := assembly] &&
        probed == old(probed) + Probes(files, fileExists, loadFrom)
    {
      if name in resolvedAssemblies {
        return resolvedAssemblies[name];
      }
      // Recorded first: a resolution of the same name triggered by a load below finds none.
      resolvedAssemblies := resolvedAssemblies[name := None];
      assembly := ProbeDirectories(name, fileExists, loadFrom);
      resolvedAssemblies := resolvedAssemblies[name := assembly];
    }

    /**
      The foreach over resolverPaths: probe each directory for the simple name
      until a load succeeds. It runs with none recorded for `name`, and that
      record stays in place through every probe and load.
     */
    method ProbeDirectories(name: string, fileExists: string -> bool, loadFrom: string -> Option<Assembly>)
      returns (assembly: Option<Assembly>)
      requires name in resolvedAssemblies && resolvedAssemblies[name] == None
      modifies this`probed
      ensures assembly == FirstLoad(ProbeFiles(resolverPaths, SimpleName(name)), fileExists, loadFrom)
      ensures probed == old(probed) + Probes(ProbeFiles(resolverPaths, SimpleName(name)), fileExists, loadFrom)
      ensures resolvedAssemblies == old(resolvedAssemblies) && resolvedAssemblies[name] == None
    {
      var simpleName := SimpleName(name);
      ghost var files := ProbeFiles(resolverPaths, simpleName);
      ghost var p0 := probed;
      assembly := None;
      var i := 0;
      while i < |resolverPaths|
        invariant 0 <= i <= |resolverPaths| == |files|
        invariant assembly.None?
        invariant probed == p0 + files[..i]
        invariant forall j :: 0 <= j < i ==> Loaded(files[j], fileExists, loadFrom).None?
      {
        var testPlatformFilePath := ProbeFile(resolverPaths[i], simpleName);
        ProbeLoopStep(files, i, p0, probed, fileExists, loadFrom);
        probed := probed + [testPlatformFilePath];
        if fileExists(testPlatformFilePath) {
          var loaded := loadFrom(testPlatformFilePath);
          if loaded.Some? {
            assembly := loaded;
            return;
          }
        }
        i := i + 1;
      }
      ProbesAfterFailures(files, i, fileExists, loadFrom);
    }
  }
}
