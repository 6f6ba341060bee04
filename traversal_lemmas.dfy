/**
 * Properties of the traversal: the shape of the root's result, the leaf
 * transformers, and the calls made to the `afterTransform` hook
 * (lib/index.js:67-178, 305-335).
 */
module TraversalLemmas {
  import opened Hast
  import opened PropertyInfo
  import opened Tiptap
  import opened Semantics

  /**
   * The root always gives `["div", {}]` followed by one result per child, in
   * order, each converted in the root's inferred namespace.
   */
  lemma RootShape(children: seq<Node>, ctx: Context, schemas: Schemas)
    ensures var r := Convert(Root(children), ctx, schemas);
            var child := RootContext(children, ctx);
      && r.Tree? && r.tag == "div" && r.attributes == []
      && |r.children| == |children|
      && (forall i :: 0 <= i < |children| ==> r.children[i] == Convert(children[i], child, schemas))
    ensures children == [] ==> Convert(Root(children), ctx, schemas) == Tree("div", [], [])
  {
  }

  /** Text keeps its value; comments and doctypes become `""`; none of them has children visited. */
  lemma LeafResults(value: string, ctx: Context, schemas: Schemas)
    ensures Convert(Text(value), ctx, schemas) == Leaf(value)
    ensures Convert(Comment(value), ctx, schemas) == Leaf("")
    ensures Convert(Doctype, ctx, schemas) == Leaf("")
    ensures ChildVisits(Text(value), ctx, schemas) == []
    ensures ChildVisits(Comment(value), ctx, schemas) == []
    ensures ChildVisits(Doctype, ctx, schemas) == []
  {
  }

  /** The nodes a traversal reaches, children before their parent. */
  ghost function PostOrder(node: Node): seq<Node>
    decreases node, 1
  {
    match node
    case Root(children) => PostOrderAll(children) + [node]
    case Element(_, _, children) => PostOrderAll(children) + [node]
    case Unknown(_, _, children) => PostOrderAll(children) + [node]
    case _ => [node]
  }

  ghost function PostOrderAll(children: seq<Node>): seq<Node>
    decreases children
  {
    if children == [] then []
    else PostOrderAll(children[..|children| - 1]) + PostOrder(children[|children| - 1])
  }

  /** The nodes the hook was called with, in call order. */
  function NodesOf(trace: seq<Visit>): (ns: seq<Node>)
    ensures |ns| == |trace|
    ensures forall i :: 0 <= i < |trace| ==> ns[i] == trace[i].0
  {
    if trace == [] then [] else [trace[0].0] + NodesOf(trace[1..])
  }

  lemma {:induction false} NodesOfConcat(a: seq<Visit>, b: seq<Visit>)
    ensures NodesOf(a + b) == NodesOf(a) + NodesOf(b)
  {
    assert |NodesOf(a + b)| == |NodesOf(a) + NodesOf(b)|;
    forall i | 0 <= i < |a + b| ensures NodesOf(a + b)[i] == (NodesOf(a) + NodesOf(b))[i] {
      if i < |a| {
        assert (a + b)[i] == a[i];
      } else {
        assert (a + b)[i] == b[i - |a|];
      }
    }
  }

  /** Without a hook nothing is reported. */
  lemma {:induction false} NoHookNoVisits(node: Node, ctx: Context, schemas: Schemas)
    requires !ctx.hook
    ensures Visits(node, ctx, schemas) == []
    decreases node, 1
  {
    match node
    case Root(children) => NoHookNoVisitsAll(children, RootContext(children, ctx), schemas);
    case Element(t, _, children) => NoHookNoVisitsAll(children, ElementContext(t, ctx), schemas);
    case Unknown(t, _, children) => NoHookNoVisitsAll(children, ElementContext(t, ctx), schemas);
    case _ =>
  }

  lemma {:induction false} NoHookNoVisitsAll(children: seq<Node>, ctx: Context, schemas: Schemas)
    requires !ctx.hook
    ensures VisitsAll(children, ctx, schemas) == []
    decreases children
  {
    if children != [] {
      NoHookNoVisitsAll(children[..|children| - 1], ctx, schemas);
      NoHookNoVisits(children[|children| - 1], ctx, schemas);
    }
  }

  /**
   * With a hook, it is called once per reached node, in post-order, and the
   * last call is for the node itself with its own result.
   */
  lemma {:induction false} VisitsArePostOrder(node: Node, ctx: Context, schemas: Schemas)
    requires ctx.hook
    ensures NodesOf(Visits(node, ctx, schemas)) == PostOrder(node)
    ensures |Visits(node, ctx, schemas)| == |PostOrder(node)| > 0
    ensures Visits(node, ctx, schemas)[|Visits(node, ctx, schemas)| - 1] == (node, Convert(node, ctx, schemas))
    decreases node, 1
  {
    var own := [(node, Convert(node, ctx, schemas))];
    NodesOfConcat(ChildVisits(node, ctx, schemas), own);
    match node
    case Root(children) => VisitsAllArePostOrder(children, RootContext(children, ctx), schemas);
    case Element(t, _, children) => VisitsAllArePostOrder(children, ElementContext(t, ctx), schemas);
    case Unknown(t, _, children) => VisitsAllArePostOrder(children, ElementContext(t, ctx), schemas);
    case _ =>
  }

  lemma {:induction false} VisitsAllArePostOrder(children: seq<Node>, ctx: Context, schemas: Schemas)
    requires ctx.hook
    ensures NodesOf(VisitsAll(children, ctx, schemas)) == PostOrderAll(children)
    decreases children
  {
    if children != [] {
      var init := children[..|children| - 1];
      var last := children[|children| - 1];
      VisitsAllArePostOrder(init, ctx, schemas);
      VisitsArePostOrder(last, ctx, schemas);
      NodesOfConcat(VisitsAll(init, ctx, schemas), Visits(last, ctx, schemas));
    }
  }

  /** `t` together with every result nested inside it, at any depth. */
  function Subresults(t: Tiptap): set<Tiptap>
    decreases t, 1
  {
    {t} + (if t.Tree? then SubresultsAll(t.children) else {})
  }

  function SubresultsAll(ts: seq<Tiptap>): set<Tiptap>
    decreases ts, 0
  {
    if ts == [] then {} else SubresultsAll(ts[..|ts| - 1]) + Subresults(ts[|ts| - 1])
  }

  /**
   * Every result the hook receives is part of the final output: the output of
   * `node` itself or one nested inside it, never a copy that is thrown away.
   */
  lemma {:induction false} VisitsInOutput(node: Node, ctx: Context, schemas: Schemas)
    ensures forall v :: v in Visits(node, ctx, schemas) ==> v.1 in Subresults(Convert(node, ctx, schemas))
    decreases node, 1
  {
    match node {
      case Root(children) => VisitsAllInOutput(children, RootContext(children, ctx), schemas);
      case Element(t, _, children) => VisitsAllInOutput(children, ElementContext(t, ctx), schemas);
      case Unknown(t, _, children) => VisitsAllInOutput(children, ElementContext(t, ctx), schemas);
      case _ =>
    }
  }

  lemma {:induction false} VisitsAllInOutput(children: seq<Node>, ctx: Context, schemas: Schemas)
    ensures forall v :: v in VisitsAll(children, ctx, schemas) ==> v.1 in SubresultsAll(ConvertAll(children, ctx, schemas))
    decreases children
  {
    if children != [] {
      var init := children[..|children| - 1];
      var last := children[|children| - 1];
      VisitsAllInOutput(init, ctx, schemas);
      VisitsInOutput(last, ctx, schemas);
      var rs := ConvertAll(children, ctx, schemas);
      assert rs[..|rs| - 1] == ConvertAll(init, ctx, schemas);
    }
  }
}
