/**
  XmlRunSettingsUtilities: operations on the run-settings document, an
  element tree whose document element is normally `RunSettings`.
 */
module RunSettingsUtilities {
  import opened ObjectModel
  import opened Text
  import opened XmlTree

  const RunSettingsName := "RunSettings"
  const DataCollectionRunSettingsName := "DataCollectionRunSettings"
  const DataCollectorsSettingName := "DataCollectors"
  const DataCollectorSettingName := "DataCollector"
  const RunConfigurationSettingsName := "RunConfiguration"
  const TestRunParametersName := "TestRunParameters"
  const InProcDataCollectionRunSettingsName := "InProcDataCollectionRunSettings"

  const FakesFriendlyName := "UnitTestIsolation"
  const FakesDataCollectorUri := "datacollector://microsoft/unittestisolation/1.0"
  const FakesDataCollectorAssemblyQualifiedName := "Microsoft.VisualStudio.TraceCollector.UnitTestIsolationDataCollector, Microsoft.VisualStudio.TraceCollector, Version=11.0.0.0, Culture=neutral, PublicKeyToken=b03f5f7f11d50a3a"

  /** The settings XML as the caller passes it: null, empty, white space only, or a well-formed document. */
  datatype SettingsXml = Null | Empty | WhiteSpace | Document(root: Element)

  predicate IsNullOrWhiteSpace(x: SettingsXml)
  {
    !x.Document?
  }

  // ---------------------------------------------------------------- architecture

  datatype PlatformArchitecture = PlatformX86 | PlatformX64 | PlatformARM | PlatformARM64
  datatype Architecture = Default | X86 | X64 | ARM | AnyCPU

  /** OSArchitecture, for the architecture the platform reports. */
  function OSArchitecture(platform: PlatformArchitecture): (a: Architecture)
    ensures a == X64 <==> platform == PlatformX64
    ensures a == X86 <==> platform == PlatformX86
    ensures a == ARM <==> !(platform == PlatformX64 || platform == PlatformX86)
  {
    match platform
    case PlatformX64 => X64
    case PlatformX86 => X86
    case _ => ARM
  }

  // ---------------------------------------------------------------- remove / replace a section

  /** A settings section (TestRunSettings): its name and the element its ToXml produces. */
  datatype SettingsSection = SettingsSection(name: string, xml: Element)

  /** The document element with its first child called `name` removed, if there is one. */
  function WithoutSection(root: Element, name: string): Element
  {
    match FirstChildNamed(root.children, name, false)
    case None => root
    case Some(i) => root.(children := root.children[..i] + root.children[i + 1..])
  }

  /** The document element with `e` appended when no child is called `name`, else with the content of the first such child replaced by `e`'s. */
  function WithSection(root: Element, name: string, e: Element): Element
  {
    match FirstChildNamed(root.children, name, false)
    case None => root.(children := root.children + [e])
    case Some(i) => root.(children := root.children[i := root.children[i].(children := e.children, text := e.text)])
  }

  function Names(es: seq<Element>): seq<string>
  {
    seq(|es|, i requires 0 <= i < |es| => es[i].name)
  }

  /** Removing a section takes exactly one child called `name` away when there is one, and nothing otherwise. */
  lemma WithoutSectionSpec(root: Element, name: string)
    ensures WithoutSection(root, name).name == root.name
    ensures WithoutSection(root, name).attributes == root.attributes
    ensures multiset(Names(WithoutSection(root, name).children)) == multiset(Names(root.children)) - multiset{name}
    ensures FirstChildNamed(root.children, name, false).None? <==> WithoutSection(root, name) == root
  {
    var cs := root.children;
    var ns := Names(cs);
    match FirstChildNamed(cs, name, false)
    case None =>
      assert name !in multiset(ns) by {
        forall j | 0 <= j < |ns| ensures ns[j] != name {
          assert !NameMatches(cs[j], name, false);
        }
      }
    case Some(i) =>
      var rest := cs[..i] + cs[i + 1..];
      assert Names(rest) == ns[..i] + ns[i + 1..];
      assert ns == ns[..i] + [ns[i]] + ns[i + 1..];
      assert ns[i] == name;
      assert |rest| < |cs|;
  }

  /** Replacing a section appends one child when the name is new and otherwise keeps the child count; the section found afterwards by that name has the new content. */
  lemma WithSectionSpec(root: Element, name: string, e: Element)
    requires e.name == name
    ensures WithSection(root, name, e).name == root.name
    ensures WithSection(root, name, e).attributes == root.attributes
    ensures |WithSection(root, name, e).children|
         == |root.children| + (if FirstChildNamed(root.children, name, false).None? then 1 else 0)
    ensures FirstChildNamed(root.children, name, false).None? ==>
      WithSection(root, name, e).children == root.children + [e]
    ensures var r := WithSection(root, name, e);
      FirstChildNamed(r.children, name, false).Some? &&
      r.children[FirstChildNamed(r.children, name, false).value].children == e.children &&
      r.children[FirstChildNamed(r.children, name, false).value].text == e.text
  {
    FirstChildNamedAppend(root.children, e, name, false);
    match FirstChildNamed(root.children, name, false)
    case None =>
    case Some(i) =>
      var c := root.children[i];
      FirstChildNamedUpdate(root.children, i, c.(children := e.children, text := e.text), name, false);
  }

  /** Replacing the same section twice is the same as replacing it once. */
  lemma WithSectionIdempotent(root: Element, name: string, e: Element)
    requires e.name == name
    ensures WithSection(WithSection(root, name, e), name, e) == WithSection(root, name, e)
  {
    var r := WithSection(root, name, e);
    WithSectionSpec(root, name, e);
    var k := FirstChildNamed(r.children, name, false).value;
    assert r.children[k].(children := e.children, text := e.text) == r.children[k];
    assert r.children[k := r.children[k]] == r.children;
  }

  /** Removing a section that was just added restores the original document element. */
  lemma RemoveUndoesAdd(root: Element, e: Element)
    requires FirstChildNamed(root.children, e.name, false).None?
    ensures WithoutSection(WithSection(root, e.name, e), e.name) == root
  {
    FirstChildNamedAppend(root.children, e, e.name, false);
    var cs := root.children + [e];
    assert cs[..|root.children|] + cs[|root.children| + 1..] == root.children;
  }

  /** RemoveSettingsNode: argument checks, then the document with the named section removed. */
  method RemoveSettingsNode(settingsXml: SettingsXml, settingsName: Option<string>) returns (r: Result<Element>)
    ensures settingsXml.Null? ==> r == Err(ArgumentNull("settingsXml"))
    ensures settingsXml.Empty? ==> r == Err(ArgumentEmpty("settingsXml"))
    ensures (settingsXml.WhiteSpace? || settingsXml.Document?) && settingsName.None? ==>
      r == Err(ArgumentNull("settingsName"))
    ensures (settingsXml.WhiteSpace? || settingsXml.Document?) && settingsName == Some("") ==>
      r == Err(ArgumentEmpty("settingsName"))
    ensures settingsXml.WhiteSpace? && settingsName.Some? && settingsName.value != "" ==>
      r == Err(XmlError("settingsXml"))
    ensures settingsXml.Document? && settingsName.Some? && settingsName.value != "" ==>
      r == Ok(WithoutSection(settingsXml.root, settingsName.value))
  {
    if settingsXml.Null? {
      return Err(ArgumentNull("settingsXml"));
    } else if settingsXml.Empty? {
      return Err(ArgumentEmpty("settingsXml"));
    }
    if settingsName.None? {
      return Err(ArgumentNull("settingsName"));
    } else if settingsName.value == "" {
      return Err(ArgumentEmpty("settingsName"));
    }
    if settingsXml.WhiteSpace? {
      return Err(XmlError("settingsXml"));
    }
    var doc := new XmlDocument(settingsXml.root);
    var found := FirstChildNamed(doc.root.children, settingsName.value, false);
    if found.Some? {
      doc.RemoveRootChild(found.value);
    }
    r := Ok(doc.root);
  }

  /** ReplaceSettingsNode: argument checks, then the document with the section added or its content replaced. */
  method ReplaceSettingsNode(settingsXml: SettingsXml, settingsNode: Option<SettingsSection>) returns (r: Result<Element>)
    ensures settingsNode.None? ==> r == Err(ArgumentNull("settingsNode"))
    ensures settingsNode.Some? && settingsXml.Null? ==> r == Err(ArgumentNull("settingsXml"))
    ensures settingsNode.Some? && (settingsXml.Empty? || settingsXml.WhiteSpace?) ==> r == Err(XmlError("settingsXml"))
    ensures settingsNode.Some? && settingsXml.Document? ==>
      r == Ok(WithSection(settingsXml.root, settingsNode.value.name, settingsNode.value.xml))
  {
    if settingsNode.None? {
      return Err(ArgumentNull("settingsNode"));
    }
    if settingsXml.Null? {
      return Err(ArgumentNull("settingsXml"));
    }
    var newElement := settingsNode.value.xml;
    if !settingsXml.Document? {
      return Err(XmlError("settingsXml"));
    }
    var doc := new XmlDocument(settingsXml.root);
    var found := FirstChildNamed(doc.root.children, settingsNode.value.name, false);
    if found.None? {
      doc.AppendChildAt([], newElement);
    } else {
      doc.SetRootChildInnerXml(found.value, newElement);
    }
    r := Ok(doc.root);
  }

  // ---------------------------------------------------------------- the DataCollectors path

  /** The element with a child called `name` added at the end when it has none. */
  function WithChild(t: Element, name: string): Element
  {
    if FirstChildNamed(t.children, name, false).Some? then t
    else t.(children := t.children + [EmptyElement(name)])
  }

  lemma WithChildSpec(t: Element, name: string)
    ensures WithChild(t, name).name == t.name
    ensures FirstChildNamed(WithChild(t, name).children, name, false).Some?
    ensures FirstChildNamed(t.children, name, false).Some? ==> WithChild(t, name) == t
    ensures FirstChildNamed(t.children, name, false).None? ==>
      WithChild(t, name).children == t.children + [EmptyElement(name)] &&
      FirstChildNamed(WithChild(t, name).children, name, false) == Some(|t.children|)
    ensures WithChild(t, name).attributes == t.attributes && WithChild(t, name).text == t.text
  {
    FirstChildNamedAppend(t.children, EmptyElement(name), name, false);
  }

  /** The indices of the first DataCollectionRunSettings child and, inside it, of the first DataCollectors child. */
  function CollectorsPath(root: Element): Option<(nat, nat)>
  {
    match FirstChildNamed(root.children, DataCollectionRunSettingsName, false)
    case None => None
    case Some(i) =>
      match FirstChildNamed(root.children[i].children, DataCollectorsSettingName, false)
      case None => None
      case Some(j) => Some((i, j))
  }

  /** The children of the DataCollectors element on that path ([] when the path is missing). */
  function Collectors(root: Element): seq<Element>
  {
    match CollectorsPath(root)
    case None => []
    case Some((i, j)) => root.children[i].children[j].children
  }

  /** The document element after MoveToDataCollectorsNode: the two sections created where missing. */
  function EnsureCollectorsPath(root: Element): Element
  {
    var r1 := WithChild(root, DataCollectionRunSettingsName);
    match FirstChildNamed(r1.children, DataCollectionRunSettingsName, false)
    case None => r1
    case Some(i) => r1.(children := r1.children[i := WithChild(r1.children[i], DataCollectorsSettingName)])
  }

  /** After it the path exists; an existing path is left as it is, so doing it again changes nothing; existing collectors are kept. */
  lemma EnsureCollectorsPathSpec(root: Element)
    ensures EnsureCollectorsPath(root).name == root.name
    ensures CollectorsPath(EnsureCollectorsPath(root)).Some?
    ensures CollectorsPath(root).Some? ==> EnsureCollectorsPath(root) == root
    ensures EnsureCollectorsPath(EnsureCollectorsPath(root)) == EnsureCollectorsPath(root)
    ensures Collectors(EnsureCollectorsPath(root)) == Collectors(root)
    ensures |EnsureCollectorsPath(root).children|
         == |root.children| + (if FirstChildNamed(root.children, DataCollectionRunSettingsName, false).None? then 1 else 0)
  {
    var r1 := WithChild(root, DataCollectionRunSettingsName);
    WithChildSpec(root, DataCollectionRunSettingsName);
    var i := FirstChildNamed(r1.children, DataCollectionRunSettingsName, false).value;
    var d := WithChild(r1.children[i], DataCollectorsSettingName);
    WithChildSpec(r1.children[i], DataCollectorsSettingName);
    var t := r1.(children := r1.children[i := d]);
    FirstChildNamedUpdate(r1.children, i, d, DataCollectionRunSettingsName, false);
    assert EnsureCollectorsPath(root) == t;
    assert CollectorsPath(t).Some?;
    if CollectorsPath(root).Some? {
      assert r1 == root && d == root.children[i];
      assert root.children[i := root.children[i]] == root.children;
    }
    EnsureUnchangedWhenPresent(t);
    if FirstChildNamed(root.children, DataCollectionRunSettingsName, false).None? {
      assert r1.children[i] == EmptyElement(DataCollectionRunSettingsName);
      assert d.children == [EmptyElement(DataCollectorsSettingName)];
    }
  }

  lemma EnsureUnchangedWhenPresent(root: Element)
    requires CollectorsPath(root).Some?
    ensures EnsureCollectorsPath(root) == root
  {
    var i := FirstChildNamed(root.children, DataCollectionRunSettingsName, false).value;
    assert WithChild(root, DataCollectionRunSettingsName) == root;
    assert WithChild(root.children[i], DataCollectorsSettingName) == root.children[i];
    assert root.children[i := root.children[i]] == root.children;
  }

  /**
    MoveToDataCollectorsNode: fails when the document element is not
    RunSettings; otherwise creates DataCollectionRunSettings and DataCollectors
    where missing and returns the path to DataCollectors.
   */
  method MoveToDataCollectorsNode(doc: XmlDocument) returns (r: Result<seq<nat>>)
    modifies doc
    ensures old(doc.root).name != RunSettingsName ==> r == Err(XmlError(RunSettingsName)) && doc.root == old(doc.root)
    ensures old(doc.root).name == RunSettingsName ==>
      doc.root == EnsureCollectorsPath(old(doc.root)) &&
      CollectorsPath(doc.root).Some? && r == Ok([CollectorsPath(doc.root).value.0, CollectorsPath(doc.root).value.1])
  {
    if doc.root.name != RunSettingsName {
      return Err(XmlError(RunSettingsName));
    }
    ghost var root0 := doc.root;
    var i := FirstChildNamed(doc.root.children, DataCollectionRunSettingsName, false);
    if i.None? {
      doc.AppendChildAt([], EmptyElement(DataCollectionRunSettingsName));
      i := FirstChildNamed(doc.root.children, DataCollectionRunSettingsName, false);
    }
    WithChildSpec(root0, DataCollectionRunSettingsName);
    assert doc.root == WithChild(root0, DataCollectionRunSettingsName);
    ghost var root1 := doc.root;
    var iv := i.value;
    var j := FirstChildNamed(doc.root.children[iv].children, DataCollectorsSettingName, false);
    if j.None? {
      assert ValidPath(doc.root, [iv]) by { assert [iv][1..] == []; }
      doc.AppendChildAt([iv], EmptyElement(DataCollectorsSettingName));
      assert [iv][1..] == [];
      j := FirstChildNamed(doc.root.children[iv].children, DataCollectorsSettingName, false);
    }
    WithChildSpec(root1.children[iv], DataCollectorsSettingName);
    assert doc.root == root1.(children := root1.children[iv := WithChild(root1.children[iv], DataCollectorsSettingName)]);
    FirstChildNamedUpdate(root1.children, iv, doc.root.children[iv], DataCollectionRunSettingsName, false);
    r := Ok([iv, j.value]);
  }

  // ---------------------------------------------------------------- data collectors

  /** DataCollectorSettings, with the fields the run-settings code sets. */
  datatype DataCollectorSettings = DataCollectorSettings(uri: string, assemblyQualifiedName: string, friendlyName: string, isEnabled: bool)

  /** The DataCollector element a settings object serializes to. */
  function CollectorElement(s: DataCollectorSettings): (e: Element)
    ensures e.name == DataCollectorSettingName && "uri" in e.attributes && e.attributes["uri"] == s.uri
  {
    Node(DataCollectorSettingName,
      map["uri" := s.uri, "assemblyQualifiedName" := s.assemblyQualifiedName, "friendlyName" := s.friendlyName],
      [], "")
  }

  /** The settings of the Fakes (unit test isolation) data collector. */
  function CreateFakesDataCollectorSettings(): (s: DataCollectorSettings)
    ensures s.uri == FakesDataCollectorUri && s.friendlyName == FakesFriendlyName
    ensures s.assemblyQualifiedName == FakesDataCollectorAssemblyQualifiedName && s.isEnabled
  {
    DataCollectorSettings(FakesDataCollectorUri, FakesDataCollectorAssemblyQualifiedName, FakesFriendlyName, true)
  }

  /** The children called `name` of each element of `es`, in document order (one step of an XPath child axis). */
  function ChildrenNamed(es: seq<Element>, name: string): seq<Element>
  {
    if es == [] then []
    else ChildrenOf(es[0].children, name) + ChildrenNamed(es[1..], name)
  }

  function ChildrenOf(cs: seq<Element>, name: string): seq<Element>
  {
    if cs == [] then []
    else (if cs[0].name == name then [cs[0]] else []) + ChildrenOf(cs[1..], name)
  }

  lemma {:induction false} ChildrenOfHas(cs: seq<Element>, k: nat, name: string)
    requires k < |cs| && cs[k].name == name
    ensures cs[k] in ChildrenOf(cs, name)
  {
    if k > 0 {
      ChildrenOfHas(cs[1..], k - 1, name);
    }
  }

  lemma {:induction false} ChildrenNamedHas(es: seq<Element>, i: nat, k: nat, name: string)
    requires i < |es| && k < |es[i].children| && es[i].children[k].name == name
    ensures es[i].children[k] in ChildrenNamed(es, name)
  {
    if i == 0 {
      ChildrenOfHas(es[0].children, k, name);
    } else {
      ChildrenNamedHas(es[1..], i - 1, k, name);
    }
  }

  /** The nodes selected by /RunSettings/DataCollectionRunSettings/DataCollectors/DataCollector. */
  function DataCollectorNodes(root: Element): seq<Element>
  {
    var top := if root.name == RunSettingsName then [root] else [];
    ChildrenNamed(ChildrenNamed(ChildrenNamed(top, DataCollectionRunSettingsName), DataCollectorsSettingName), DataCollectorSettingName)
  }

  /** GetAttribute("uri", ""): the empty string when the attribute is missing. */
  function UriOf(e: Element): string
  {
    if "uri" in e.attributes then e.attributes["uri"] else ""
  }

  /** The search over the selected nodes for a uri equal to `uri` ignoring case. */
  function AnyUriMatches(nodes: seq<Element>, uri: string): (b: bool)
    ensures b <==> exists k :: 0 <= k < |nodes| && EqualsIgnoreCase(uri, UriOf(nodes[k]))
  {
    if nodes == [] then false
    else if EqualsIgnoreCase(uri, UriOf(nodes[0])) then true
    else
      assert forall k :: 1 <= k < |nodes| ==> nodes[k] == nodes[1..][k - 1];
      AnyUriMatches(nodes[1..], uri)
  }

  /** ContainsDataCollector: both arguments must be present; then whether some selected DataCollector has the uri, ignoring case. */
  function ContainsDataCollector(runSettingDocument: Option<Element>, dataCollectorUri: Option<string>): (r: Result<bool>)
    ensures runSettingDocument.None? ==> r == Err(ArgumentNull("runSettingDocument"))
    ensures runSettingDocument.Some? && dataCollectorUri.None? ==> r == Err(ArgumentNull("dataCollectorUri"))
    ensures runSettingDocument.Some? && dataCollectorUri.Some? ==>
      r.Ok? &&
      (r.value <==> exists k :: 0 <= k < |DataCollectorNodes(runSettingDocument.value)| &&
                     EqualsIgnoreCase(dataCollectorUri.value, UriOf(DataCollectorNodes(runSettingDocument.value)[k])))
  {
    if runSettingDocument.None? then Err(ArgumentNull("runSettingDocument"))
    else if dataCollectorUri.None? then Err(ArgumentNull("dataCollectorUri"))
    else Ok(AnyUriMatches(DataCollectorNodes(runSettingDocument.value), dataCollectorUri.value))
  }

  /** ContainsFakesDataCollector. */
  function ContainsFakesDataCollector(runSettings: Option<Element>): (r: Result<bool>)
    ensures runSettings.None? ==> r == Err(ArgumentNull("runSettings"))
    ensures runSettings.Some? ==>
      r.Ok? &&
      (r.value <==> exists k :: 0 <= k < |DataCollectorNodes(runSettings.value)| &&
                     EqualsIgnoreCase(FakesDataCollectorUri, UriOf(DataCollectorNodes(runSettings.value)[k])))
  {
    if runSettings.None? then Err(ArgumentNull("runSettings"))
    else ContainsDataCollector(runSettings, Some(FakesDataCollectorUri))
  }

  /** The document element after InsertDataCollectorsNode on a RunSettings document. */
  function WithCollector(root: Element, s: DataCollectorSettings): Element
  {
    var t := EnsureCollectorsPath(root);
    match CollectorsPath(t)
    case None => t
    case Some((i, j)) =>
      var dcs := t.children[i].children[j];
      t.(children := t.children[i := t.children[i].(children :=
        t.children[i].children[j := dcs.(children := dcs.children + [CollectorElement(s)])])])
  }

  /** Inserting a collector appends exactly that one element under DataCollectors and keeps the path. */
  lemma WithCollectorAppendsOne(root: Element, s: DataCollectorSettings)
    ensures WithCollector(root, s).name == root.name
    ensures CollectorsPath(WithCollector(root, s)) == CollectorsPath(EnsureCollectorsPath(root))
    ensures Collectors(WithCollector(root, s)) == Collectors(root) + [CollectorElement(s)]
  {
    EnsureCollectorsPathSpec(root);
    var t := EnsureCollectorsPath(root);
    var (i, j) := CollectorsPath(t).value;
    var dcs := t.children[i].children[j];
    var d2 := t.children[i].(children := t.children[i].children[j := dcs.(children := dcs.children + [CollectorElement(s)])]);
    FirstChildNamedUpdate(t.children, i, d2, DataCollectionRunSettingsName, false);
    FirstChildNamedUpdate(t.children[i].children, j, dcs.(children := dcs.children + [CollectorElement(s)]), DataCollectorsSettingName, false);
  }

  /** After inserting a collector into a RunSettings document, ContainsDataCollector finds its uri. */
  lemma InsertedCollectorIsFound(root: Element, s: DataCollectorSettings)
    requires root.name == RunSettingsName
    ensures ContainsDataCollector(Some(WithCollector(root, s)), Some(s.uri)) == Ok(true)
  {
    WithCollectorAppendsOne(root, s);
    var w := WithCollector(root, s);
    var (i, j) := CollectorsPath(w).value;
    var l1 := ChildrenNamed([w], DataCollectionRunSettingsName);
    var l2 := ChildrenNamed(l1, DataCollectorsSettingName);
    ChildrenNamedHas([w], 0, i, DataCollectionRunSettingsName);
    var a := IndexOf(l1, w.children[i]);
    ChildrenNamedHas(l1, a, j, DataCollectorsSettingName);
    var dcs := w.children[i].children[j];
    var b := IndexOf(l2, dcs);
    var last := |dcs.children| - 1;
    assert dcs.children == Collectors(w);
    ChildrenNamedHas(l2, b, last, DataCollectorSettingName);
    var nodes := DataCollectorNodes(w);
    var c := IndexOf(nodes, dcs.children[last]);
    assert EqualsIgnoreCase(s.uri, UriOf(nodes[c]));
  }

  function IndexOf(es: seq<Element>, e: Element): (k: nat)
    requires e in es
    ensures k < |es| && es[k] == e
  {
    if es[0] == e then 0 else 1 + IndexOf(es[1..], e)
  }

  /** Inserting the Fakes collector settings makes ContainsFakesDataCollector true. */
  lemma InsertedFakesCollectorIsFound(root: Element)
    requires root.name == RunSettingsName
    ensures ContainsFakesDataCollector(Some(WithCollector(root, CreateFakesDataCollectorSettings()))) == Ok(true)
  {
    InsertedCollectorIsFound(root, CreateFakesDataCollectorSettings());
  }

  /** InsertDataCollectorsNode: argument checks, then the settings appended under DataCollectors. */
  method InsertDataCollectorsNode(runSettingDocument: XmlDocument?, settings: Option<DataCollectorSettings>) returns (r: Result<()>)
    modifies runSettingDocument
    ensures runSettingDocument == null ==> r == Err(ArgumentNull("runSettingDocument"))
    ensures runSettingDocument != null && settings.None? ==>
      r == Err(ArgumentNull("settings")) && runSettingDocument.root == old(runSettingDocument.root)
    ensures runSettingDocument != null && settings.Some? && old(runSettingDocument.root).name != RunSettingsName ==>
      r == Err(XmlError(RunSettingsName)) && runSettingDocument.root == old(runSettingDocument.root)
    ensures runSettingDocument != null && settings.Some? && old(runSettingDocument.root).name == RunSettingsName ==>
      r == Ok(()) && runSettingDocument.root == WithCollector(old(runSettingDocument.root), settings.value)
  {
    if runSettingDocument == null {
      return Err(ArgumentNull("runSettingDocument"));
    }
    if settings.None? {
      return Err(ArgumentNull("settings"));
    }
    ghost var root0 := runSettingDocument.root;
    var path := MoveToDataCollectorsNode(runSettingDocument);
    if path.Err? {
      return Err(path.error);
    }
    var t := runSettingDocument.root;
    var (i, j) := CollectorsPath(t).value;
    assert ValidPath(t, [i, j]) by {
      assert [i, j][1..] == [j];
      assert [j][1..] == [];
    }
    var x := CollectorElement(settings.value);
    runSettingDocument.AppendChildAt(path.value, x);
    assert [i, j][1..] == [j];
    assert [j][1..] == [];
    assert AppendAt(t.children[i].children[j], [], [x]) == t.children[i].children[j].(children := t.children[i].children[j].children + [x]);
    assert AppendAt(t.children[i], [j], [x]) == t.children[i].(children := t.children[i].children[j := AppendAt(t.children[i].children[j], [], [x])]);
    r := Ok(());
  }

  // ---------------------------------------------------------------- the default document

  /** RunSettings / DataCollectionRunSettings / DataCollectors, with no collectors. */
  function DefaultRunSettings(): Element
  {
    Node(RunSettingsName, map[], [Node(DataCollectionRunSettingsName, map[], [EmptyElement(DataCollectorsSettingName)], "")], "")
  }

  /** The default document already has the DataCollectors path, holds no collectors, and contains no data collector. */
  lemma DefaultRunSettingsShape(uri: string)
    ensures CollectorsPath(DefaultRunSettings()) == Some((0, 0))
    ensures Collectors(DefaultRunSettings()) == []
    ensures EnsureCollectorsPath(DefaultRunSettings()) == DefaultRunSettings()
    ensures ContainsDataCollector(Some(DefaultRunSettings()), Some(uri)) == Ok(false)
  {
    var d := DefaultRunSettings();
    EnsureUnchangedWhenPresent(d);
    var l1 := [d.children[0]];
    assert ChildrenOf(d.children, DataCollectionRunSettingsName) == l1;
    assert ChildrenNamed([d], DataCollectionRunSettingsName) == l1;
    assert ChildrenOf(l1[0].children, DataCollectorsSettingName) == [EmptyElement(DataCollectorsSettingName)];
    assert ChildrenNamed(l1, DataCollectorsSettingName) == [EmptyElement(DataCollectorsSettingName)];
    assert ChildrenNamed([EmptyElement(DataCollectorsSettingName)], DataCollectorSettingName) == [];
    assert DataCollectorNodes(d) == [];
  }

  /** CreateDefaultRunSettings: builds the default document node by node. */
  method CreateDefaultRunSettings() returns (doc: XmlDocument)
    ensures fresh(doc) && doc.root == DefaultRunSettings()
  {
    doc := new XmlDocument(EmptyElement(RunSettingsName));
    doc.AppendChildAt([], EmptyElement(DataCollectionRunSettingsName));
    assert [] + [EmptyElement(DataCollectionRunSettingsName)] == [EmptyElement(DataCollectionRunSettingsName)];
    assert ValidPath(doc.root, [0]) by { assert [0][1..] == []; }
    ghost var root1 := doc.root;
    assert root1.children == [EmptyElement(DataCollectionRunSettingsName)];
    doc.AppendChildAt([0], EmptyElement(DataCollectorsSettingName));
    assert [0][1..] == [];
    assert doc.root == root1.(children := root1.children[0 := AppendAt(root1.children[0], [], [EmptyElement(DataCollectorsSettingName)])]);
    assert AppendAt(root1.children[0], [], [EmptyElement(DataCollectorsSettingName)])
        == EmptyElement(DataCollectionRunSettingsName).(children := [] + [EmptyElement(DataCollectorsSettingName)]);
    assert [] + [EmptyElement(DataCollectorsSettingName)] == [EmptyElement(DataCollectorsSettingName)];
    assert root1.children[0 := EmptyElement(DataCollectionRunSettingsName).(children := [EmptyElement(DataCollectorsSettingName)])]
        == DefaultRunSettings().children;
  }

  // ---------------------------------------------------------------- reader scans over the top-level sections

  /** The value read from the first direct child of the document element whose name matches `nodeName` (None: default(T)). */
  function SectionValue<T>(settingsXml: SettingsXml, nodeName: string, ignoreCase: bool, nodeParser: Element -> Option<T>): Option<T>
  {
    if IsNullOrWhiteSpace(settingsXml) then None
    else match FirstChildNamed(settingsXml.root.children, nodeName, ignoreCase)
      case None => None
      case Some(i) => nodeParser(settingsXml.root.children[i])
  }

  /** The reader loop: skip the sections after the document element until one matches the name or the input ends. */
  method ScanToSection(sections: seq<Element>, nodeName: string, ignoreCase: bool) returns (found: Option<nat>)
    ensures found == FirstChildNamed(sections, nodeName, ignoreCase)
  {
    var i := 0;
    while i < |sections| && !NameMatches(sections[i], nodeName, ignoreCase)
      invariant 0 <= i <= |sections|
      invariant forall k :: 0 <= k < i ==> !NameMatches(sections[k], nodeName, ignoreCase)
    {
      i := i + 1;
    }
    found := if i < |sections| then Some(i) else None;
  }

  /** GetNodeValue: for a blank input or no matching section the default; else the parse of the first section matching ignoring case. */
  method GetNodeValue<T>(settingsXml: SettingsXml, nodeName: string, nodeParser: Element -> Option<T>) returns (r: Option<T>)
    ensures IsNullOrWhiteSpace(settingsXml) ==> r.None?
    ensures settingsXml.Document? ==>
      r == match FirstChildNamed(settingsXml.root.children, nodeName, true)
           case None => None
           case Some(i) => nodeParser(settingsXml.root.children[i])
    ensures r == SectionValue(settingsXml, nodeName, true, nodeParser)
  {
    r := None;
    if !IsNullOrWhiteSpace(settingsXml) {
      var found := ScanToSection(settingsXml.root.children, nodeName, true);
      if found.Some? {
        r := nodeParser(settingsXml.root.children[found.value]);
      }
    }
  }

  /** RunConfiguration: the default object, or one read from a section. */
  datatype RunConfiguration = DefaultRunConfiguration | RunConfigurationOf(section: Element)

  method GetRunConfigurationNode(settingsXml: SettingsXml, fromXml: Element -> Option<RunConfiguration>) returns (c: RunConfiguration)
    ensures SectionValue(settingsXml, RunConfigurationSettingsName, true, fromXml).None? ==> c == DefaultRunConfiguration
    ensures SectionValue(settingsXml, RunConfigurationSettingsName, true, fromXml).Some? ==>
      c == SectionValue(settingsXml, RunConfigurationSettingsName, true, fromXml).value
  {
    var nodeValue := GetNodeValue(settingsXml, RunConfigurationSettingsName, fromXml);
    c := if nodeValue.None? then DefaultRunConfiguration else nodeValue.value;
  }

  /** The test run parameters as name/value pairs; an empty map when the section is missing. */
  method GetTestRunParameters(settingsXml: SettingsXml, fromXml: Element -> Option<map<string, string>>) returns (ps: map<string, string>)
    ensures SectionValue(settingsXml, TestRunParametersName, true, fromXml).None? ==> ps == map[]
    ensures SectionValue(settingsXml, TestRunParametersName, true, fromXml).Some? ==>
      ps == SectionValue(settingsXml, TestRunParametersName, true, fromXml).value
  {
    var nodeValue := GetNodeValue(settingsXml, TestRunParametersName, fromXml);
    ps := if nodeValue.None? then map[] else nodeValue.value;
  }

  /** DataCollectionRunSettings, with the flag the run-settings code reads. */
  datatype DataCollectionRunSettings = DataCollectionRunSettings(isCollectionEnabled: bool, dataCollectorSettingsList: seq<DataCollectorSettings>)

  /** GetDataCollectionRunSettings: the section is matched with an ordinal, case-sensitive name test. */
  method GetDataCollectionRunSettings(runSettingsXml: SettingsXml, fromXml: Element -> Option<DataCollectionRunSettings>)
    returns (r: Option<DataCollectionRunSettings>)
    ensures IsNullOrWhiteSpace(runSettingsXml) ==> r.None?
    ensures runSettingsXml.Document? ==>
      r == match FirstChildNamed(runSettingsXml.root.children, DataCollectionRunSettingsName, false)
           case None => None
           case Some(i) => fromXml(runSettingsXml.root.children[i])
    ensures r == SectionValue(runSettingsXml, DataCollectionRunSettingsName, false, fromXml)
  {
    if IsNullOrWhiteSpace(runSettingsXml) {
      return None;
    }
    var found := ScanToSection(runSettingsXml.root.children, DataCollectionRunSettingsName, false);
    if found.None? {
      return None;
    }
    r := fromXml(runSettingsXml.root.children[found.value]);
  }

  /** GetInProcDataCollectionRunSettings: the same scan for the in-process section (trimming the text changes no element). */
  method GetInProcDataCollectionRunSettings(runSettingsXml: SettingsXml, fromXml: Element -> Option<DataCollectionRunSettings>)
    returns (r: Option<DataCollectionRunSettings>)
    ensures r == SectionValue(runSettingsXml, InProcDataCollectionRunSettingsName, false, fromXml)
  {
    r := None;
    if !IsNullOrWhiteSpace(runSettingsXml) {
      var found := ScanToSection(runSettingsXml.root.children, InProcDataCollectionRunSettingsName, false);
      if found.Some? {
        r := fromXml(runSettingsXml.root.children[found.value]);
      }
    }
  }

  method IsDataCollectionEnabled(runSettingsXml: SettingsXml, fromXml: Element -> Option<DataCollectionRunSettings>) returns (b: bool)
    ensures b <==> SectionValue(runSettingsXml, DataCollectionRunSettingsName, false, fromXml).Some? &&
                   SectionValue(runSettingsXml, DataCollectionRunSettingsName, false, fromXml).value.isCollectionEnabled
  {
    var dataCollectionRunSettings := GetDataCollectionRunSettings(runSettingsXml, fromXml);
    b := !(dataCollectionRunSettings.None? || !dataCollectionRunSettings.value.isCollectionEnabled);
  }

  method IsInProcDataCollectionEnabled(runSettingsXml: SettingsXml, fromXml: Element -> Option<DataCollectionRunSettings>) returns (b: bool)
    ensures b <==> SectionValue(runSettingsXml, InProcDataCollectionRunSettingsName, false, fromXml).Some? &&
                   SectionValue(runSettingsXml, InProcDataCollectionRunSettingsName, false, fromXml).value.isCollectionEnabled
  {
    var dataCollectionRunSettings := GetInProcDataCollectionRunSettings(runSettingsXml, fromXml);
    b := !(dataCollectionRunSettings.None? || !dataCollectionRunSettings.value.isCollectionEnabled);
  }

  /** The case-insensitive scan finds every section the case-sensitive one finds, at or before the same position. */
  lemma IgnoreCaseFindsNoLater(es: seq<Element>, name: string)
    ensures FirstChildNamed(es, name, false).Some? ==>
      FirstChildNamed(es, name, true).Some? && FirstChildNamed(es, name, true).value <= FirstChildNamed(es, name, false).value
  {
    if FirstChildNamed(es, name, false).Some? {
      var i := FirstChildNamed(es, name, false).value;
      assert EqualsIgnoreCase(es[i].name, name);
      assert NameMatches(es[i], name, true);
    }
  }
}
