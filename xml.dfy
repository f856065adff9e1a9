/** The parsed reply tree the client walks: a `RestXmlNode` of librest, and
    the two queries the client makes of it, `rest_xml_node_get_attr` and
    `rest_xml_node_find`.

    librest keeps a node's children in a hash table from tag to the first
    child with that tag, the following same-tag siblings being chained through
    `next`. Here the children are one sequence in document order, and the
    `next` chain starting at a found node is the sequence of its same-tag
    siblings (`Group`). */
module Xml {
  import opened Wrappers

  datatype Node = Node(name: string, attrs: map<string, string>, content: Option<string>, children: seq<Node>)

  /** `rest_xml_node_get_attr`: the attribute's value, or NULL when absent. */
  function Attr(n: Node, key: string): (r: Option<string>)
    ensures r.Some? <==> key in n.attrs
    ensures r.Some? ==> r.value == n.attrs[key]
  {
    if key in n.attrs then Some(n.attrs[key]) else None
  }

  /** The nodes of `ns` with tag `tag`, in order. */
  function Named(ns: seq<Node>, tag: string): (r: seq<Node>)
    ensures forall m | m in r :: m.name == tag && m in ns
  {
    if ns == [] then []
    else if ns[0].name == tag then [ns[0]] + Named(ns[1..], tag)
    else Named(ns[1..], tag)
  }

  /** Some node of `ns` has the tag exactly when `Named` finds one, and the
      first it finds is the first such node of `ns`. */
  lemma {:induction false} NamedFirst(ns: seq<Node>, tag: string)
    ensures (exists m | m in ns :: m.name == tag) <==> Named(ns, tag) != []
    ensures Named(ns, tag) != [] ==>
              exists i | 0 <= i < |ns| :: ns[i] == Named(ns, tag)[0] && forall j | 0 <= j < i :: ns[j].name != tag
  {
    if ns != [] && ns[0].name != tag {
      var rest := Named(ns[1..], tag);
      NamedFirst(ns[1..], tag);
      if exists m | m in ns :: m.name == tag {
        var m :| m in ns && m.name == tag;
        assert m in ns[1..];
      }
      if rest != [] {
        var i :| 0 <= i < |ns[1..]| && ns[1..][i] == rest[0] && forall j | 0 <= j < i :: ns[1..][j].name != tag;
        assert ns[i + 1] == rest[0];
        forall j | 0 <= j < i + 1 ensures ns[j].name != tag {
          if j > 0 { assert ns[j] == ns[1..][j - 1]; }
        }
      }
    } else if ns != [] {
      assert ns[0] in ns;
    }
  }

  /** Child `i` is the first child with its tag, that is, the one librest's
      hash table holds and descends into. */
  predicate FirstOfTag(ns: seq<Node>, i: int)
    requires 0 <= i < |ns|
  {
    forall j | 0 <= j < i :: ns[j].name != ns[i].name
  }

  /** The search of `rest_xml_node_find (n, tag)`, returning the whole sibling
      chain of the node found. The children of `n` are examined first; failing
      that, the search descends into each child that heads its tag's chain, in
      turn. The start node itself is never a candidate. */
  function Group(n: Node, tag: string): (r: seq<Node>)
    ensures forall m | m in r :: m.name == tag
    decreases n, 1
  {
    var own := Named(n.children, tag);
    if own != [] then own else GroupBelow(n, tag, 0)
  }

  /** The search continued into the chain heads among children `i..`. */
  function GroupBelow(n: Node, tag: string, i: nat): (r: seq<Node>)
    requires i <= |n.children|
    ensures forall m | m in r :: m.name == tag
    decreases n, 0, |n.children| - i
  {
    if i == |n.children| then []
    else if !FirstOfTag(n.children, i) then GroupBelow(n, tag, i + 1)
    else
      var g := Group(n.children[i], tag);
      if g != [] then g else GroupBelow(n, tag, i + 1)
  }

  /** `rest_xml_node_find`: the first node of the group, or NULL. */
  function Find(n: Node, tag: string): (r: Option<Node>)
    ensures r.Some? ==> r.value.name == tag
    ensures r.Some? <==> Group(n, tag) != []
  {
    var g := Group(n, tag);
    if g == [] then None else Some(g[0])
  }

  /** A direct child is preferred to anything deeper, and the first such child
      in document order is the one found. */
  lemma FindPrefersChild(n: Node, tag: string, i: nat)
    requires i < |n.children| && n.children[i].name == tag
    requires forall j | 0 <= j < i :: n.children[j].name != tag
    ensures Find(n, tag) == Some(n.children[i])
  {
    var own := Named(n.children, tag);
    NamedFirst(n.children, tag);
    assert n.children[i] in n.children;
    var k :| 0 <= k < |n.children| && n.children[k] == own[0] && forall j | 0 <= j < k :: n.children[j].name != tag;
    assert own[0] in own;
  }
}
