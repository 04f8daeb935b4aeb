/** The XML node classes: leaf nodes holding text, parent nodes holding an
    ordered list of children, the tag check every node shares, and the
    canonical `<tag>...</tag>` serialisation. */
module XmlParser {
  import opened JsValues

  /** The two errors the node classes throw. */
  datatype NodeError = TagNotFound | TextNotFound

  function Message(e: NodeError): string
  {
    match e
    case TagNotFound => "Failed to create XMLNode: tag not found"
    case TextNotFound => "Failed to create LeafNode: text not found"
  }

  /** The value of a node, as its serialisation sees it. A parent owns its
      children; a child is held by value. */
  datatype Xml = Leaf(tag: string, text: string) | Parent(tag: string, children: seq<Xml>)

  /** Every tag and every leaf text in the tree is non-empty: what the
      constructors and setters guarantee of any node they let through. */
  predicate WellFormed(x: Xml)
    decreases x, 1
  {
    match x
    case Leaf(tag, text) => tag != "" && text != ""
    case Parent(tag, children) => tag != "" && AllWellFormed(children)
  }

  predicate AllWellFormed(xs: seq<Xml>)
    decreases xs, 0
  {
    forall i | 0 <= i < |xs| :: WellFormed(xs[i])
  }

  lemma AllWellFormedAppend(xs: seq<Xml>, x: Xml)
    requires AllWellFormed(xs) && WellFormed(x)
    ensures AllWellFormed(xs + [x])
  {
    forall i | 0 <= i < |xs + [x]|
      ensures WellFormed((xs + [x])[i])
    {
      if i < |xs| {
        assert (xs + [x])[i] == xs[i];
      }
    }
  }

  function OpenTag(tag: string): string { "<" + tag + ">" }

  function CloseTag(tag: string): string { "</" + tag + ">" }

  /** `toString` of either node kind. */
  function Serialize(x: Xml): string
    decreases x, 1
  {
    match x
    case Leaf(tag, text) => OpenTag(tag) + text + CloseTag(tag)
    case Parent(tag, children) => OpenTag(tag) + SerializeAll(children) + CloseTag(tag)
  }

  /** The serialisations of `xs`, concatenated in order. */
  function SerializeAll(xs: seq<Xml>): string
    decreases xs, 0
  {
    if xs == [] then "" else Serialize(xs[0]) + SerializeAll(xs[1..])
  }

  /** Serialising a list split in two is serialising each part. */
  lemma {:induction false} SerializeAllAppend(a: seq<Xml>, b: seq<Xml>)
    ensures SerializeAll(a + b) == SerializeAll(a) + SerializeAll(b)
    decreases |a|
  {
    if a == [] {
      assert a + b == b;
    } else {
      assert (a + b)[1..] == a[1..] + b;
      SerializeAllAppend(a[1..], b);
    }
  }

  lemma SerializeAllSingleton(x: Xml)
    ensures SerializeAll([x]) == Serialize(x)
  {
    assert [x][1..] == [];
  }

  /** Child `k` appears whole, after the children before it and before the
      children after it. */
  lemma ChildInOrder(children: seq<Xml>, k: nat)
    requires k < |children|
    ensures SerializeAll(children)
         == SerializeAll(children[..k]) + Serialize(children[k]) + SerializeAll(children[k + 1..])
  {
    assert children == children[..k] + children[k..];
    SerializeAllAppend(children[..k], children[k..]);
  }

  /** Appending a child appends its serialisation just before the closing tag. */
  lemma SerializeAfterAppend(tag: string, children: seq<Xml>, node: Xml)
    ensures Serialize(Parent(tag, children + [node]))
         == OpenTag(tag) + SerializeAll(children) + Serialize(node) + CloseTag(tag)
  {
    SerializeAllAppend(children, [node]);
  }

  /** A leaf node. */
  class LeafNode {
    var tag: string
    var text: string

    function Value(): Xml
      reads this
    {
      Leaf(tag, text)
    }

    ghost predicate Valid()
      reads this
    {
      WellFormed(Value())
    }

    /** The part of `new LeafNode(tag, text)` after its checks have passed. */
    constructor (tag: string, text: string)
      requires tag != "" && text != ""
      ensures Valid() && this.tag == tag && this.text == text
    {
      this.tag := tag;
      this.text := text;
    }

    /** `new LeafNode(tag, text)`: the text is checked first, then the tag. */
    static method Create(tag: Option<string>, text: Option<string>) returns (r: Result<LeafNode, NodeError>)
      ensures r.Success? <==> Truthy(tag) && Truthy(text)
      ensures !Truthy(text) ==> r == Failure(TextNotFound)
      ensures Truthy(text) && !Truthy(tag) ==> r == Failure(TagNotFound)
      ensures r.Success? ==> fresh(r.value) && r.value.Valid() && r.value.Value() == Leaf(tag.value, text.value)
    {
      if !Truthy(text) {
        return Failure(TextNotFound);
      }
      if !Truthy(tag) {
        return Failure(TagNotFound);
      }
      var node := new LeafNode(tag.value, text.value);
      return Success(node);
    }

    method GetTag() returns (t: string)
      requires Valid()
      ensures t == tag && t != ""
    {
      t := tag;
    }

    /** A missing or empty tag is refused and the node keeps its tag. */
    method SetTag(newTag: Option<string>) returns (r: Outcome<NodeError>)
      requires Valid()
      modifies this
      ensures Valid()
      ensures r == if Truthy(newTag) then Pass else Fail(TagNotFound)
      ensures tag == if Truthy(newTag) then newTag.value else old(tag)
      ensures text == old(text)
    {
      if !Truthy(newTag) {
        return Fail(TagNotFound);
      }
      tag := newTag.value;
      return Pass;
    }

    method GetText() returns (t: string)
      requires Valid()
      ensures t == text && t != ""
    {
      t := text;
    }

    /** A missing or empty text is refused and the node keeps its text. */
    method SetText(newText: Option<string>) returns (r: Outcome<NodeError>)
      requires Valid()
      modifies this
      ensures Valid()
      ensures r == if Truthy(newText) then Pass else Fail(TextNotFound)
      ensures text == if Truthy(newText) then newText.value else old(text)
      ensures tag == old(tag)
    {
      if !Truthy(newText) {
        return Fail(TextNotFound);
      }
      text := newText.value;
      return Pass;
    }

    method ToString() returns (s: string)
      ensures s == Serialize(Value())
      ensures |s| == 2 * |tag| + |text| + 5
    {
      s := "<" + tag + ">" + text + "</" + tag + ">";
    }
  }

  /** A node with an ordered list of children. */
  class ParentNode {
    var tag: string
    var children: seq<Xml>

    function Value(): Xml
      reads this
    {
      Parent(tag, children)
    }

    ghost predicate Valid()
      reads this
    {
      WellFormed(Value())
    }

    /** The part of `new ParentNode(tag, children)` after its check has passed. */
    constructor (tag: string, children: seq<Xml>)
      requires tag != "" && AllWellFormed(children)
      ensures Valid() && this.tag == tag && this.children == children
    {
      this.tag := tag;
      this.children := children;
    }

    /** `new ParentNode(tag, children)`: an omitted `children` means no children. */
    static method Create(tag: Option<string>, children: Option<seq<Xml>>) returns (r: Result<ParentNode, NodeError>)
      requires children.Some? ==> AllWellFormed(children.value)
      ensures r.Success? <==> Truthy(tag)
      ensures !Truthy(tag) ==> r == Failure(TagNotFound)
      ensures r.Success? ==> fresh(r.value) && r.value.Valid()
      ensures r.Success? ==> r.value.Value() == Parent(tag.value, if children.Some? then children.value else [])
    {
      if !Truthy(tag) {
        return Failure(TagNotFound);
      }
      var cs := if children.Some? then children.value else [];
      var node := new ParentNode(tag.value, cs);
      return Success(node);
    }

    method GetTag() returns (t: string)
      requires Valid()
      ensures t == tag && t != ""
    {
      t := tag;
    }

    /** A missing or empty tag is refused and the node keeps its tag. */
    method SetTag(newTag: Option<string>) returns (r: Outcome<NodeError>)
      requires Valid()
      modifies this
      ensures Valid()
      ensures r == if Truthy(newTag) then Pass else Fail(TagNotFound)
      ensures tag == if Truthy(newTag) then newTag.value else old(tag)
      ensures children == old(children)
    {
      if !Truthy(newTag) {
        return Fail(TagNotFound);
      }
      tag := newTag.value;
      return Pass;
    }

    method GetChildren() returns (cs: seq<Xml>)
      requires Valid()
      ensures cs == children && AllWellFormed(cs)
    {
      cs := children;
    }

    method SetChildren(cs: seq<Xml>)
      requires Valid() && AllWellFormed(cs)
      modifies this
      ensures Valid()
      ensures children == cs && tag == old(tag)
    {
      children := cs;
    }

    method AddChild(node: Xml)
      requires Valid() && WellFormed(node)
      modifies this
      ensures Valid()
      ensures children == old(children) + [node] && tag == old(tag)
    {
      AllWellFormedAppend(children, node);
      children := children + [node];
    }

    /** Opening tag, each child's serialisation in child order, closing tag. */
    method ToString() returns (s: string)
      ensures s == Serialize(Value())
    {
      s := OpenTag(tag);
      for i := 0 to |children|
        invariant s == OpenTag(tag) + SerializeAll(children[..i])
      {
        assert children[..i + 1] == children[..i] + [children[i]];
        SerializeAllAppend(children[..i], [children[i]]);
        s := s + Serialize(children[i]);
      }
      assert children[..|children|] == children;
      s := s + CloseTag(tag);
    }
  }

  /** A parent with four children serialises them one after another. */
  lemma {:induction false} SerializeFourChildren(tag: string, a: Xml, b: Xml, c: Xml, d: Xml)
    ensures Serialize(Parent(tag, [a, b, c, d]))
         == OpenTag(tag) + Serialize(a) + Serialize(b) + Serialize(c) + Serialize(d) + CloseTag(tag)
  {
    assert [a, b, c, d] == [a] + [b] + [c] + [d];
    SerializeAllAppend([a] + [b] + [c], [d]);
    SerializeAllAppend([a] + [b], [c]);
    SerializeAllAppend([a], [b]);
    SerializeAllSingleton(a);
    SerializeAllSingleton(b);
    SerializeAllSingleton(c);
    SerializeAllSingleton(d);
  }

  /** The parent-node serialisation scenario: an empty parent node, then four
      children added one by one, the second a parent node built with its own
      child list. The result serialises the four children in the order they
      were added (see `SerializeFourChildren`). */
  method ParentNodeExample() returns (s: string)
    ensures s == Serialize(Parent("parent1", [Leaf("leaf1", "The first leaf child"),
                                              Parent("parent2", [Leaf("leaf2", "A nested leaf child")]),
                                              Leaf("leaf3", "The third leaf child"),
                                              Leaf("leaf4", "The fourth leaf child")]))
  {
    var created := ParentNode.Create(Some("parent1"), None);
    var parent := created.value;
    var leaf1 := new LeafNode("leaf1", "The first leaf child");
    var x1 := leaf1.Value();
    parent.AddChild(x1);
    var leaf2 := new LeafNode("leaf2", "A nested leaf child");
    var parent2 := new ParentNode("parent2", [leaf2.Value()]);
    var x2 := parent2.Value();
    parent.AddChild(x2);
    var leaf3 := new LeafNode("leaf3", "The third leaf child");
    var x3 := leaf3.Value();
    parent.AddChild(x3);
    var leaf4 := new LeafNode("leaf4", "The fourth leaf child");
    var x4 := leaf4.Value();
    parent.AddChild(x4);
    assert parent.Value() == Parent("parent1", [x1, x2, x3, x4]);
    s := parent.ToString();
  }
}
