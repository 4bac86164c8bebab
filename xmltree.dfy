/**
  An abstract XML DOM: elements with a qualified name, attributes, child
  elements and text, addressed by paths of child indices; and a document
  object (System.Xml.XmlDocument) whose tree is changed in place.
 */
module XmlTree {
  import opened ObjectModel
  import opened Text

  /** An element whose names are of type N: plain qualified names in the DOM, namespace/local-name pairs in LINQ to XML. */
  datatype Node<N> = Node(name: N, attributes: map<string, string>, children: seq<Node<N>>, text: string)

  /** A DOM element (System.Xml.XmlElement), named by its qualified name. */
  type Element = Node<string>

  function EmptyElement(name: string): Element
  {
    Node(name, map[], [], "")
  }

  /** A name test: ordinal, or ordinal ignoring case. */
  predicate NameMatches(e: Element, name: string, ignoreCase: bool)
  {
    if ignoreCase then EqualsIgnoreCase(e.name, name) else e.name == name
  }

  /**
    The index of the first element of `es` whose name matches `name`, if any:
    `parent[name]` on a DOM element (ordinal), or a reader scan over the
    children of the document element.
   */
  function FirstChildNamed(es: seq<Element>, name: string, ignoreCase: bool): (r: Option<nat>)
    ensures r.Some? ==> r.value < |es| && NameMatches(es[r.value], name, ignoreCase)
    ensures r.Some? ==> forall j :: 0 <= j < r.value ==> !NameMatches(es[j], name, ignoreCase)
    ensures r.None? ==> forall j :: 0 <= j < |es| ==> !NameMatches(es[j], name, ignoreCase)
  {
    if es == [] then None
    else if NameMatches(es[0], name, ignoreCase) then Some(0)
    else match FirstChildNamed(es[1..], name, ignoreCase)
      case None => None
      case Some(k) => Some(k + 1)
  }

  lemma FirstChildNamedAppend(es: seq<Element>, x: Element, name: string, ignoreCase: bool)
    ensures FirstChildNamed(es, name, ignoreCase).Some? ==>
      FirstChildNamed(es + [x], name, ignoreCase) == FirstChildNamed(es, name, ignoreCase)
    ensures FirstChildNamed(es, name, ignoreCase).None? && NameMatches(x, name, ignoreCase) ==>
      FirstChildNamed(es + [x], name, ignoreCase) == Some(|es|)
  {
    var r := FirstChildNamed(es + [x], name, ignoreCase);
    assert forall j :: 0 <= j < |es| ==> (es + [x])[j] == es[j];
    assert (es + [x])[|es|] == x;
    if FirstChildNamed(es, name, ignoreCase).Some? {
      var i := FirstChildNamed(es, name, ignoreCase).value;
      assert NameMatches((es + [x])[i], name, ignoreCase);
    }
  }

  /** The first index found stays the same when the element there is replaced by one of the same name. */
  lemma FirstChildNamedUpdate(es: seq<Element>, i: nat, y: Element, name: string, ignoreCase: bool)
    requires i < |es| && FirstChildNamed(es, name, ignoreCase) == Some(i) && NameMatches(y, name, ignoreCase)
    ensures FirstChildNamed(es[i := y], name, ignoreCase) == Some(i)
  {
    var r := FirstChildNamed(es[i := y], name, ignoreCase);
    assert NameMatches(es[i := y][i], name, ignoreCase);
    assert forall j :: 0 <= j < i ==> es[i := y][j] == es[j];
  }

  predicate ValidPath<N>(t: Node<N>, p: seq<nat>)
    decreases |p|
  {
    p == [] || (p[0] < |t.children| && ValidPath(t.children[p[0]], p[1..]))
  }

  function At<N>(t: Node<N>, p: seq<nat>): Node<N>
    requires ValidPath(t, p)
    decreases |p|
  {
    if p == [] then t else At(t.children[p[0]], p[1..])
  }

  /** The tree with `xs` appended, in order, after the last child of the element at `p`. */
  function AppendAt<N>(t: Node<N>, p: seq<nat>, xs: seq<Node<N>>): Node<N>
    requires ValidPath(t, p)
    decreases |p|
  {
    if p == [] then t.(children := t.children + xs)
    else t.(children := t.children[p[0] := AppendAt(t.children[p[0]], p[1..], xs)])
  }

  /**
    Appending below `p` keeps `p` valid and only adds `xs` at the end of the
    target's children: every element on the path keeps its name, attributes
    and text, and on each level every sibling of the path is left as it was.
   */
  lemma {:induction false} AppendAtSpec<N>(t: Node<N>, p: seq<nat>, xs: seq<Node<N>>)
    requires ValidPath(t, p)
    ensures ValidPath(AppendAt(t, p, xs), p)
    ensures AppendAt(t, p, xs).name == t.name
    ensures AppendAt(t, p, xs).attributes == t.attributes && AppendAt(t, p, xs).text == t.text
    ensures At(AppendAt(t, p, xs), p) == At(t, p).(children := At(t, p).children + xs)
    ensures p != [] ==>
      && |AppendAt(t, p, xs).children| == |t.children|
      && AppendAt(t, p, xs).children[..p[0]] == t.children[..p[0]]
      && AppendAt(t, p, xs).children[p[0] + 1..] == t.children[p[0] + 1..]
    decreases |p|
  {
    if p != [] {
      AppendAtSpec(t.children[p[0]], p[1..], xs);
    }
  }

  /** Two paths that part ways: neither is a prefix of the other. */
  predicate Diverges(p: seq<nat>, q: seq<nat>)
    decreases |p|
  {
    p != [] && q != [] && (p[0] != q[0] || Diverges(p[1..], q[1..]))
  }

  /** Every subtree off the path `p` is the same before and after appending below `p`. */
  lemma {:induction false} AppendAtFrame<N>(t: Node<N>, p: seq<nat>, xs: seq<Node<N>>, q: seq<nat>)
    requires ValidPath(t, p) && ValidPath(t, q) && Diverges(p, q)
    ensures ValidPath(AppendAt(t, p, xs), q) && At(AppendAt(t, p, xs), q) == At(t, q)
    decreases |p|
  {
    var r := AppendAt(t, p, xs);
    if p[0] != q[0] {
      assert r.children[q[0]] == t.children[q[0]];
    } else {
      AppendAtFrame(t.children[p[0]], p[1..], xs, q[1..]);
    }
  }

  /** The document object; its tree is changed in place. */
  class XmlDocument {
    var root: Element

    constructor (root: Element)
      ensures this.root == root
    {
      this.root := root;
    }

    /** AppendChild on the element at `p`. */
    method AppendChildAt(p: seq<nat>, x: Element)
      requires ValidPath(root, p)
      modifies this
      ensures root == AppendAt(old(root), p, [x])
    {
      root := AppendAt(root, p, [x]);
    }

    /** RemoveChild on the document element. */
    method RemoveRootChild(i: nat)
      requires i < |root.children|
      modifies this
      ensures root == old(root).(children := old(root.children)[..i] + old(root.children)[i + 1..])
    {
      root := root.(children := root.children[..i] + root.children[i + 1..]);
    }

    /** Setting InnerXml of a child of the document element: its content changes, its name and attributes stay. */
    method SetRootChildInnerXml(i: nat, from: Element)
      requires i < |root.children|
      modifies this
      ensures root == old(root).(children := old(root.children)[i := old(root.children)[i].(children := from.children, text := from.text)])
    {
      root := root.(children := root.children[i := root.children[i].(children := from.children, text := from.text)]);
    }
  }
}
