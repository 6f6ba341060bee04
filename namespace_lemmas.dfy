/**
 * Namespace rules: how the root infers the document namespace from its `html`
 * children (lib/index.js:103-144) and how an element picks its tag, its schema
 * and its children's namespace (lib/index.js:188-212, 294).
 */
module NamespaceLemmas {
  import opened Optional
  import opened JsValue
  import opened JsObject
  import opened Hast
  import opened PropertyInfo
  import opened Tiptap
  import opened Semantics

  /** A namespace option is kept as it is, whatever the children. */
  lemma {:induction false} OptionNamespaceKept(children: seq<Node>, ctxNamespace: Option<string>)
    requires ctxNamespace.Some?
    ensures ScanNamespace(children, ctxNamespace) == ctxNamespace
  {
    if children != [] {
      OptionNamespaceKept(children[..|children| - 1], ctxNamespace);
    }
  }

  /** Without `html` children the namespace stays as given (unset when no option is given). */
  lemma {:induction false} NoHtmlChildKeepsNamespace(children: seq<Node>, ctxNamespace: Option<string>)
    requires forall i :: 0 <= i < |children| ==> !IsHtmlElement(children[i])
    ensures ScanNamespace(children, ctxNamespace) == ctxNamespace
  {
    if children != [] {
      var init := children[..|children| - 1];
      assert forall i :: 0 <= i < |init| ==> init[i] == children[i];
      NoHtmlChildKeepsNamespace(init, ctxNamespace);
    }
  }

  /** Without a namespace option, the last `html` child decides the namespace. */
  lemma {:induction false} LastHtmlChildWins(children: seq<Node>, i: nat)
    requires i < |children| && IsHtmlElement(children[i])
    requires forall j :: i < j < |children| ==> !IsHtmlElement(children[j])
    ensures ScanNamespace(children, None) == Some(XmlnsNamespace(children[i].properties))
  {
    if i < |children| - 1 {
      var init := children[..|children| - 1];
      assert forall j :: 0 <= j < |init| ==> init[j] == children[j];
      LastHtmlChildWins(init, i);
    }
  }

  /** The namespace the root passes to all its children, as both fields of the context. */
  lemma RootNamespace(children: seq<Node>, ctx: Context)
    ensures RootContext(children, ctx).namespace == RootContext(children, ctx).impliedNamespace
    ensures RootContext(children, ctx).hook == ctx.hook
    ensures ctx.namespace.Some? ==> RootContext(children, ctx).namespace == ctx.namespace
    ensures (forall i :: 0 <= i < |children| ==> !IsHtmlElement(children[i])) ==>
      RootContext(children, ctx).namespace == ctx.namespace
    ensures ctx.namespace.None? ==>
      forall i :: 0 <= i < |children| && IsHtmlElement(children[i])
                  && (forall j :: i < j < |children| ==> !IsHtmlElement(children[j])) ==>
        RootContext(children, ctx).namespace == Some(XmlnsNamespace(children[i].properties))
  {
    if ctx.namespace.Some? {
      OptionNamespaceKept(children, ctx.namespace);
    }
    if forall i :: 0 <= i < |children| ==> !IsHtmlElement(children[i]) {
      NoHtmlChildKeepsNamespace(children, ctx.namespace);
    }
    if ctx.namespace.None? {
      forall i | 0 <= i < |children| && IsHtmlElement(children[i])
                 && (forall j :: i < j < |children| ==> !IsHtmlElement(children[j]))
        ensures ScanNamespace(children, ctx.namespace) == Some(XmlnsNamespace(children[i].properties))
      {
        LastHtmlChildWins(children, i);
      }
    }
  }

  /**
   * Two `html` children with different `xmlns`: the second one decides, so the
   * scan does not stop at the first match.
   */
  lemma LaterHtmlChildOverrides()
    ensures var first := Element(Some("html"), [("xmlns", Str("urn:a"))], []);
            var second := Element(Some("html"), [("xmlns", Str("urn:b"))], []);
            ScanNamespace([first, second], None) == Some("urn:b")
  {
  }

  /**
   * The truthy `xmlns` values other than strings: a number is rendered in
   * decimal (and reads back as that number), `true` as `"true"`, and an array
   * as its elements joined with `","`, an empty join falling back to HTML.
   */
  lemma XmlnsRendering(props: Properties)
    ensures var x := Get(props, "xmlns").GetOr(Undef);
            x.Int? && x.i != 0 ==> XmlnsNamespace(props) == Decimal(x.i) && DecimalValue(XmlnsNamespace(props)) == x.i
    ensures Get(props, "xmlns").GetOr(Undef) == Bool(true) ==> XmlnsNamespace(props) == "true"
    ensures var x := Get(props, "xmlns").GetOr(Undef);
            x.Arr? ==> XmlnsNamespace(props) == if Join(x.items, ",") == "" then HTML else Join(x.items, ",")
  {
    var x := Get(props, "xmlns").GetOr(Undef);
    if x.Int? {
      DecimalRoundTrip(x.i);
    }
  }

  /** The element's tag: its own, or `g` exactly in an SVG context and `div` otherwise. */
  lemma ElementTagDefault(tagName: Option<string>, props: Properties, children: seq<Node>,
                          ctx: Context, schemas: Schemas)
    ensures var r := Convert(Element(tagName, props, children), ctx, schemas);
      && r.Tree?
      && (tagName.Some? ==> r.tag == tagName.value)
      && (tagName.None? ==> (r.tag == "g" <==> ImpliedNamespace(ctx) == Some(SVG)))
      && (tagName.None? ==> (r.tag == "div" <==> ImpliedNamespace(ctx) != Some(SVG)))
  {
  }

  /**
   * The namespace an element's schema and children use: an `svg` tag under an
   * unset or HTML namespace switches to SVG; otherwise the implied namespace
   * is handed on unchanged. Only `impliedNamespace` changes in the context.
   */
  lemma ElementNamespaceRules(tagName: Option<string>, props: Properties, children: seq<Node>,
                              ctx: Context, schemas: Schemas)
    ensures var r := Convert(Element(tagName, props, children), ctx, schemas);
            var implied := ImpliedNamespace(ctx);
            var child := ElementContext(tagName, ctx);
      && r.Tree?
      && child.namespace == ctx.namespace && child.hook == ctx.hook
      && ((implied.None? || implied == Some(HTML)) && r.tag == "svg" ==>
            child.impliedNamespace == Some(SVG) && r.attributes == Attributes(schemas.svg, props))
      && (!((implied.None? || implied == Some(HTML)) && r.tag == "svg") ==>
            child.impliedNamespace == implied)
      && (child.impliedNamespace == Some(SVG) ==> r.attributes == Attributes(schemas.svg, props))
      && (child.impliedNamespace != Some(SVG) ==> r.attributes == Attributes(schemas.html, props))
      && |r.children| == |children|
      && (forall i :: 0 <= i < |children| ==> r.children[i] == Convert(children[i], child, schemas))
  {
  }

  /** An SVG context is never switched back: every element below it is in SVG too. */
  lemma SvgIsKept(tagName: Option<string>, props: Properties, children: seq<Node>,
                  ctx: Context, schemas: Schemas)
    requires ImpliedNamespace(ctx) == Some(SVG)
    ensures ImpliedNamespace(ElementContext(tagName, ctx)) == Some(SVG)
    ensures Convert(Element(tagName, props, children), ctx, schemas).Tree?
    ensures Convert(Element(tagName, props, children), ctx, schemas).attributes == Attributes(schemas.svg, props)
  {
  }

  /** A node of unknown type is converted as an element with the same fields. */
  lemma UnknownIsElement(tagName: Option<string>, props: Properties, children: seq<Node>,
                         ctx: Context, schemas: Schemas)
    ensures Convert(Unknown(tagName, props, children), ctx, schemas)
         == Convert(Element(tagName, props, children), ctx, schemas)
  {
  }
}
