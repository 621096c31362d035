/** The part of the Xembly library and of XPath that the pulse log relies on:
    a document, the two ways applying a script to it can fail, and the fixed
    query that extracts tags from it. */
module Xembly {
  import opened Wrappers

  /** A DOM node: an element with its name and children, or a text node. */
  datatype Node = Element(name: string, children: seq<Node>) | Text(value: string)

  /** A DOM document: its top-level nodes in document order. */
  datatype Doc = Doc(nodes: seq<Node>)

  /** The document every replay starts from (`Snapshot.empty()`), modelled
      as a document with no nodes. */
  const EmptyDoc: Doc := Doc([])

  /** `XemblySyntaxException` and `ImpossibleModificationException`, each
      with the message of its root cause. */
  datatype ApplyError = SyntaxError(message: string) | ImpossibleModification(message: string)

  /** `new Snapshot(script).apply(dom)`: parse the script and run it on a
      document, giving the modified document or one of the two failures.
      The language itself is not part of this model. */
  type Applier = (string, Doc) -> Result<Doc, ApplyError>

  /** The element names the query `//tags/tag/label/text()` asks for, from
      the innermost step outwards. */
  const LabelStep := "label"
  const TagStep := "tag"
  const TagsStep := "tags"

  /** Element names, innermost first, of the three nearest ancestors of a
      node; "" stands for "no element" (the document itself or above it),
      which no XML element name can be. */
  datatype Ancestry = Ancestry(parent: string, grand: string, great: string)

  const TopLevel := Ancestry("", "", "")

  /** One generation deeper: the ancestry of the children of an element
      called `name` whose own ancestry is `a`. */
  function Below(a: Ancestry, name: string): Ancestry
  {
    Ancestry(name, a.parent, a.grand)
  }

  /** Whether a text node with ancestry `a` is selected by the query. */
  predicate Selected(a: Ancestry)
  {
    a.parent == LabelStep && a.grand == TagStep && a.great == TagsStep
  }

  /** Text of the selected text nodes at or under `n`, in document order. */
  function NodeTags(n: Node, a: Ancestry): seq<string>
    decreases n
  {
    match n
    case Text(v) => if Selected(a) then [v] else []
    case Element(name, cs) => ForestTags(cs, Below(a, name))
  }

  /** Text of the selected text nodes in a sequence of siblings, in
      document order. */
  function ForestTags(ns: seq<Node>, a: Ancestry): seq<string>
    decreases ns
  {
    if ns == [] then [] else NodeTags(ns[0], a) + ForestTags(ns[1..], a)
  }

  /** `xml.xpath("//tags/tag/label/text()")`: the text of every text node
      whose parent is a `label`, grandparent a `tag` and great-grandparent a
      `tags` element, in document order, duplicates kept. */
  function Tags(d: Doc): seq<string>
  {
    ForestTags(d.nodes, TopLevel)
  }

  /** Whether some element at or under `n` is called `name`. */
  predicate NodeHas(n: Node, name: string)
    decreases n
  {
    match n
    case Text(_) => false
    case Element(m, cs) => m == name || ForestHas(cs, name)
  }

  predicate ForestHas(ns: seq<Node>, name: string)
    decreases ns
  {
    ns != [] && (NodeHas(ns[0], name) || ForestHas(ns[1..], name))
  }

  /** Tags of two runs of sibling nodes are the tags of each, in order: the
      query keeps document order. */
  lemma {:induction false} ForestTagsAppend(xs: seq<Node>, ys: seq<Node>, a: Ancestry)
    ensures ForestTags(xs + ys, a) == ForestTags(xs, a) + ForestTags(ys, a)
    decreases xs
  {
    if xs == [] {
      assert xs + ys == ys;
    } else {
      assert (xs + ys)[1..] == xs[1..] + ys;
      ForestTagsAppend(xs[1..], ys, a);
    }
  }

  /** A node yields tags only from under a `tags` element: either one of
      its three nearest ancestors or one inside it is called `tags`. */
  lemma {:induction false} NodeTagsNeedTagsElement(n: Node, a: Ancestry)
    requires a.parent != TagsStep && a.grand != TagsStep && a.great != TagsStep
    requires !NodeHas(n, TagsStep)
    ensures NodeTags(n, a) == []
    decreases n
  {
    match n
    case Text(_) =>
    case Element(name, cs) => ForestTagsNeedTagsElement(cs, Below(a, name));
  }

  lemma {:induction false} ForestTagsNeedTagsElement(ns: seq<Node>, a: Ancestry)
    requires a.parent != TagsStep && a.grand != TagsStep && a.great != TagsStep
    requires !ForestHas(ns, TagsStep)
    ensures ForestTags(ns, a) == []
    decreases ns
  {
    if ns != [] {
      NodeTagsNeedTagsElement(ns[0], a);
      ForestTagsNeedTagsElement(ns[1..], a);
    }
  }

  /** A document without any `tags` element has no tags; in particular the
      empty document has none. */
  lemma TagsNeedTagsElement(d: Doc)
    requires !ForestHas(d.nodes, TagsStep)
    ensures Tags(d) == []
  {
    ForestTagsNeedTagsElement(d.nodes, TopLevel);
  }

  /** `<tags><tag><label>x</label></tag><tag><label>y</label></tag></tags>`
      yields the two labels in document order. */
  lemma TwoLabelsInOrder(x: string, y: string)
    ensures Tags(Doc([Element(TagsStep, [
              Element(TagStep, [Element(LabelStep, [Text(x)])]),
              Element(TagStep, [Element(LabelStep, [Text(y)])])])])) == [x, y]
  {
    var inTags := Ancestry(TagsStep, "", "");
    var inTag := Below(inTags, TagStep);
    var inLabel := Below(inTag, LabelStep);
    assert Selected(inLabel);
    assert ForestTags([Text(x)], inLabel) == [x];
    assert ForestTags([Text(y)], inLabel) == [y];
    assert ForestTags([Element(LabelStep, [Text(x)])], inTag) == [x];
    assert ForestTags([Element(LabelStep, [Text(y)])], inTag) == [y];
    var tx := Element(TagStep, [Element(LabelStep, [Text(x)])]);
    var ty := Element(TagStep, [Element(LabelStep, [Text(y)])]);
    assert NodeTags(tx, inTags) == [x];
    assert NodeTags(ty, inTags) == [y];
    assert ForestTags([ty], inTags) == [y];
    assert ForestTags([tx, ty], inTags) == [x, y] by {
      assert [tx, ty][1..] == [ty];
    }
    var top := Element(TagsStep, [tx, ty]);
    assert Below(TopLevel, TagsStep) == inTags;
    assert NodeTags(top, TopLevel) == [x, y];
    assert ForestTags([top], TopLevel) == [x, y];
  }
}
