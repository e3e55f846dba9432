/**
 * The parser's tree nodes as heap objects: a node holds its first child, and
 * the children are linked through their right-sibling references. A node's
 * children are described by a ghost sequence that the links spell out.
 */
module CNodes {
  import opened JavaInt
  import opened DataTypes
  import opened Exceptions
  import Tokens
  import CodeTrees

  /** `CNode.nextId`, the static counter that numbers nodes. */
  class IdCounter {
    var next: int

    constructor ()
      ensures next == 0
    {
      next := 0;
    }
  }

  class CNode {
    const id: int
    const valType: DataType
    const token: Tokens.TokenView
    /** The injected generator, named by what it generates. */
    const kind: CodeTrees.Kind
    var capture: Option<string>
    var parent: CNode?
    var rsib: CNode?
    var child: CNode?

    /** The two-argument constructor: the value type is Empty. Each node takes
        the next id. */
    constructor (token: Tokens.TokenView, kind: CodeTrees.Kind, ids: IdCounter)
      modifies ids
      ensures this.token == token && this.kind == kind && valType == Empty
      ensures id == old(ids.next) && ids.next == old(ids.next) + 1
      ensures capture.None? && parent == null && rsib == null && child == null
    {
      this.token := token;
      this.kind := kind;
      valType := Empty;
      id := ids.next;
      capture := None;
      parent := null;
      rsib := null;
      child := null;
      ids.next := ids.next + 1;
    }

    /** The three-argument constructor, with a value type. */
    constructor Typed(token: Tokens.TokenView, kind: CodeTrees.Kind, t: DataType, ids: IdCounter)
      modifies ids
      ensures this.token == token && this.kind == kind && valType == t
      ensures id == old(ids.next) && ids.next == old(ids.next) + 1
      ensures capture.None? && parent == null && rsib == null && child == null
    {
      this.token := token;
      this.kind := kind;
      valType := t;
      id := ids.next;
      capture := None;
      parent := null;
      rsib := null;
      child := null;
      ids.next := ids.next + 1;
    }

    method SetParent(p: CNode?)
      modifies this
      ensures parent == p && rsib == old(rsib) && child == old(child) && capture == old(capture)
    {
      parent := p;
    }

    method SetChild(c: CNode?)
      modifies this
      ensures child == c && rsib == old(rsib) && parent == old(parent) && capture == old(capture)
    {
      child := c;
    }

    method SetSibling(c: CNode?)
      modifies this
      ensures rsib == c && child == old(child) && parent == old(parent) && capture == old(capture)
    {
      rsib := c;
    }

    method SetCapture(c: string)
      modifies this
      ensures capture == Some(c) && rsib == old(rsib) && child == old(child) && parent == old(parent)
    {
      capture := Some(c);
    }
  }

  /** `first` and the sibling links after it spell out `s`: the links run
      through `s` in order and stop with a null after its last node. */
  ghost predicate Chain(first: CNode?, s: seq<CNode>)
    reads set x | x in s
  {
    && first == (if |s| == 0 then null else s[0])
    && (forall i :: 0 <= i < |s| - 1 ==> s[i].rsib == s[i + 1])
    && (|s| > 0 ==> s[|s| - 1].rsib == null)
  }

  /** What `getChild(node, i)` answers when the children are `s`: a non-positive
      index gives the first child, an index past the last child the null after
      it, and one further a NullPointerException on the walk. */
  function ChildAt(s: seq<CNode>, i: int): Try<CNode?>
  {
    if i <= 0 then Ok(if |s| == 0 then null else s[0])
    else if i < |s| then Ok(s[i])
    else if i == |s| then Ok(null)
    else Thrown(NullPointer)
  }

  lemma ChainTail(first: CNode?, s: seq<CNode>)
    requires Chain(first, s) && |s| > 0
    ensures Chain(s[0].rsib, s[1..])
  {
  }

  /** The links determine the children: two sequences spelled out from the
      same first child are the same. */
  lemma {:induction false} ChainDetermines(first: CNode?, s: seq<CNode>, t: seq<CNode>)
    requires Chain(first, s) && Chain(first, t)
    ensures s == t
    decreases |s|
  {
    if |s| > 0 {
      assert |t| > 0 && s[0] == t[0];
      ChainTail(first, s);
      ChainTail(first, t);
      ChainDetermines(s[0].rsib, s[1..], t[1..]);
      assert s == [s[0]] + s[1..] && t == [t[0]] + t[1..];
    } else {
      assert |t| == 0;
    }
  }

  /** `numChildren(node)`: follows the sibling links from the first child. */
  method NumChildren(node: CNode, ghost s: seq<CNode>) returns (n: int)
    requires Chain(node.child, s)
    ensures n == |s|
  {
    if node.child == null {
      return 0;
    }
    n := 1;
    var c := node.child;
    while c.rsib != null
      invariant 1 <= n <= |s| && c == s[n - 1]
      invariant c.rsib == (if n < |s| then s[n] else null)
      decreases |s| - n
    {
      c := c.rsib;
      n := n + 1;
    }
  }

  /** `getChild(node, i)`: walks i sibling links from the first child. */
  method GetChild(node: CNode, i: int, ghost s: seq<CNode>) returns (r: Try<CNode?>)
    requires Chain(node.child, s)
    ensures r == ChildAt(s, i)
  {
    var c := node.child;
    var j := 0;
    while j < i
      invariant 0 <= j <= |s| && (i > 0 ==> j <= i) && (i <= 0 ==> j == 0)
      invariant c == (if j < |s| then s[j] else null)
    {
      if c == null {
        return Thrown(NullPointer);
      }
      if j + 1 < |s| {
        assert s[j].rsib == s[j + 1];
      }
      c := c.rsib;
      j := j + 1;
    }
    assert i <= 0 ==> j == 0;
    return Ok(c);
  }

  /** `addChild(root, c)`: the first child when there is none, otherwise the
      sibling of the last child; the siblings `c` already links to come along. */
  method AddChild(root: CNode, c: CNode, ghost s: seq<CNode>, ghost cs: seq<CNode>)
    requires Chain(root.child, s) && Chain(c, cs)
    requires forall x :: x in cs ==> x !in s
    modifies if |s| == 0 then {root} else {s[|s| - 1]}
    ensures Chain(root.child, s + cs)
    ensures |s| > 0 ==> root.child == old(root.child)
    ensures forall x :: x in s ==> x.child == old(x.child) && x.parent == old(x.parent)
  {
    var n := NumChildren(root, s);
    if n == 0 {
      root.SetChild(c);
      return;
    }
    var last := root.child;
    ghost var k := 0;
    while last.rsib != null
      invariant 0 <= k < |s| && last == s[k]
      invariant last.rsib == (if k < |s| - 1 then s[k + 1] else null)
      decreases |s| - k
    {
      last := last.rsib;
      k := k + 1;
    }
    assert k == |s| - 1;
    assert forall i :: 0 <= i < |s| - 1 ==> s[i] != last by {
      forall i | 0 <= i < |s| - 1
        ensures s[i] != last
      {
        assert s[i].rsib == s[i + 1];
      }
    }
    assert forall j :: 0 <= j < |cs| ==> cs[j] != last by {
      forall j | 0 <= j < |cs|
        ensures cs[j] != last
      {
        assert cs[j] in cs;
      }
    }
    last.SetSibling(c);
    ghost var t := s + cs;
    forall i | 0 <= i < |t| - 1
      ensures t[i].rsib == t[i + 1]
    {
      if i < |s| - 1 {
        assert t[i] == s[i] && t[i + 1] == s[i + 1];
      } else if i >= |s| {
        assert t[i] == cs[i - |s|] && t[i + 1] == cs[i - |s| + 1];
        assert old(cs[i - |s|].rsib) == cs[i - |s| + 1];
      }
    }
    assert t[|t| - 1] == cs[|cs| - 1] && old(cs[|cs| - 1].rsib) == null;
  }
}
