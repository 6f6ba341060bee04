/**
 * The meaning of the converter in lib/index.js as pure functions: what each
 * node becomes (Convert), which (node, result) pairs the `afterTransform` hook
 * receives and in which order (Visits), and the rules for namespaces and
 * attributes that both depend on. The methods in module HastToTiptap are
 * proved to compute exactly these.
 */
module Semantics {
  import opened Optional
  import opened JsValue
  import opened JsObject
  import opened Hast
  import opened PropertyInfo
  import opened Tiptap

  /**
   * The context threaded top-down. `hook` says whether an `afterTransform`
   * callback was given; it is copied unchanged into every child context.
   */
  datatype Context = Context(namespace: Option<string>, impliedNamespace: Option<string>, hook: bool)

  /** One call of the `afterTransform` hook: the original node and its result. */
  type Visit = (Node, Tiptap)

  // ---------------------------------------------------------------- namespaces

  /** JavaScript `a || b` on optional strings: `undefined` and `""` are falsy. */
  function OrElse(a: Option<string>, b: Option<string>): Option<string> {
    if a.Some? && a.value != "" then a else b
  }

  /** `ctx.impliedNamespace || ctx.namespace`. */
  function ImpliedNamespace(ctx: Context): Option<string> {
    OrElse(ctx.impliedNamespace, ctx.namespace)
  }

  /** The element's tag, defaulted from the implied namespace when absent. */
  function ElementTag(tagName: Option<string>, implied: Option<string>): string {
    tagName.GetOr(if implied == Some(SVG) then "g" else "div")
  }

  /** An `svg` tag switches an unset or HTML namespace to SVG. */
  function SwitchedNamespace(implied: Option<string>, tag: string): Option<string> {
    if (implied.None? || implied == Some(HTML)) && tag == "svg" then Some(SVG) else implied
  }

  function SchemaFor(schemas: Schemas, implied: Option<string>): Schema {
    if implied == Some(SVG) then schemas.svg else schemas.html
  }

  /** The namespace an element uses for its own schema and hands to its children. */
  function ElementNamespace(tagName: Option<string>, ctx: Context): Option<string> {
    var implied := ImpliedNamespace(ctx);
    SwitchedNamespace(implied, ElementTag(tagName, implied))
  }

  /** `{ ...ctx, impliedNamespace }` as the element passes it to its children. */
  function ElementContext(tagName: Option<string>, ctx: Context): Context {
    ctx.(impliedNamespace := ElementNamespace(tagName, ctx))
  }

  /** A direct root child that decides the document namespace. */
  predicate IsHtmlElement(n: Node) {
    n.Element? && n.tagName == Some("html")
  }

  /** `String(properties.xmlns || '') || webNamespaces.html`. */
  function XmlnsNamespace(props: Properties): (ns: string)
    ensures ns != ""
    ensures !Truthy(Get(props, "xmlns").GetOr(Undef)) ==> ns == HTML
    ensures var x := Get(props, "xmlns").GetOr(Undef); x.Str? && x.s != "" ==> ns == x.s
  {
    var xmlns := Get(props, "xmlns").GetOr(Undef);
    var s := ToJsString(if Truthy(xmlns) then xmlns else Str(""));
    if s == "" then HTML else s
  }

  /**
   * The namespace after the root's scan of its children, child by child: each
   * `html` element overwrites it while no namespace option was given.
   */
  function ScanNamespace(children: seq<Node>, ctxNamespace: Option<string>): Option<string> {
    if children == [] then ctxNamespace
    else
      var last := children[|children| - 1];
      if IsHtmlElement(last) && ctxNamespace.None? then Some(XmlnsNamespace(last.properties))
      else ScanNamespace(children[..|children| - 1], ctxNamespace)
  }

  /** `{ ...ctx, namespace, impliedNamespace: namespace }` as the root passes it on. */
  function RootContext(children: seq<Node>, ctx: Context): Context {
    var ns := ScanNamespace(children, ctx.namespace);
    Context(ns, ns, ctx.hook)
  }

  // ---------------------------------------------------------------- attributes

  /** What one property does to the attribute object. */
  datatype Action = Write(value: PropValue) | Remove | Skip

  function Separator(info: Info): string {
    if info.commaSeparated then ", " else " "
  }

  /** Array values are joined into one string before any rule looks at them. */
  function Prepare(info: Info, raw: PropValue): (v: PropValue)
    ensures !v.Arr?
    ensures !raw.Arr? ==> v == raw
  {
    if raw.Arr? then Str(Join(raw.items, Separator(info))) else raw
  }

  /** The decision chain, first matching rule wins; `mustUseProperty` plays no part. */
  function Decide(info: Info, value: PropValue): Action {
    if info.boolean || (info.overloadedBoolean && value.Bool?) then
      if Truthy(value) then Write(Str("")) else Remove
    else if info.booleanish then Write(value)
    else if value == Bool(true) then Write(Str(""))
    else if Truthy(value) || value == Int(0) || value == Str("") then Write(value)
    else Skip
  }

  /** The action for property `key` of `props`, looked up in `schema`. */
  function Effect(schema: Schema, props: Properties, key: string): (a: Action)
    ensures a.Write? ==> !a.value.Arr?
  {
    var info := Find(schema, key);
    Decide(info, Prepare(info, Get(props, key).GetOr(Undef)))
  }

  function Apply(attrs: Obj<PropValue>, name: string, action: Action): Obj<PropValue> {
    match action
    case Write(v) => Set(attrs, name, v)
    case Remove => Delete(attrs, name)
    case Skip => attrs
  }

  /** One turn of the element's attribute loop. */
  function ApplyProperty(attrs: Obj<PropValue>, schema: Schema, props: Properties, key: string): Obj<PropValue> {
    Apply(attrs, Find(schema, key).attribute, Effect(schema, props, key))
  }

  /** No stored attribute value is an array. */
  ghost predicate Scalars(attrs: Obj<PropValue>) {
    forall a :: Get(attrs, a).Some? ==> !Get(attrs, a).value.Arr?
  }

  /** The attribute object after the loop has handled `keys`, in order. */
  function FoldProperties(schema: Schema, props: Properties, keys: seq<string>): (attrs: Obj<PropValue>)
    ensures UniqueKeys(attrs)
    ensures Scalars(attrs)
  {
    if keys == [] then []
    else
      var before := FoldProperties(schema, props, keys[..|keys| - 1]);
      ApplyProperty(before, schema, props, keys[|keys| - 1])
  }

  /** Handling one more key of `keys` is one more turn of the loop. */
  lemma FoldPrefix(schema: Schema, props: Properties, keys: seq<string>, i: nat)
    requires i < |keys|
    ensures FoldProperties(schema, props, keys[..i + 1])
         == ApplyProperty(FoldProperties(schema, props, keys[..i]), schema, props, keys[i])
  {
    assert keys[..i + 1][..i] == keys[..i];
  }

  /** The attribute object an element builds from its properties. */
  function Attributes(schema: Schema, props: Properties): Obj<PropValue> {
    FoldProperties(schema, props, Keys(props))
  }

  // ---------------------------------------------------------------- traversal

  /** What `transform(node, ctx)` returns. */
  function Convert(node: Node, ctx: Context, schemas: Schemas): Tiptap
    decreases node
  {
    match node
    case Root(children) => Tree("div", [], ConvertAll(children, RootContext(children, ctx), schemas))
    case Text(value) => Leaf(value)
    case Comment(_) => Leaf("")
    case Doctype => Leaf("")
    case Element(tagName, props, children) => ConvertElement(tagName, props, children, ctx, schemas)
    case Unknown(tagName, props, children) => ConvertElement(tagName, props, children, ctx, schemas)
  }

  /** What `element(node, ctx)` returns. */
  function ConvertElement(tagName: Option<string>, props: Properties, children: seq<Node>,
                          ctx: Context, schemas: Schemas): Tiptap
    decreases children, 1
  {
    var ns := ElementNamespace(tagName, ctx);
    Tree(ElementTag(tagName, ImpliedNamespace(ctx)),
         Attributes(SchemaFor(schemas, ns), props),
         ConvertAll(children, ElementContext(tagName, ctx), schemas))
  }

  /** The children's results, one per child and in order. */
  function ConvertAll(children: seq<Node>, ctx: Context, schemas: Schemas): (rs: seq<Tiptap>)
    decreases children, 0
    ensures |rs| == |children|
    ensures forall i :: 0 <= i < |children| ==> rs[i] == Convert(children[i], ctx, schemas)
  {
    if children == [] then []
    else
      ConvertAll(children[..|children| - 1], ctx, schemas)
        + [Convert(children[|children| - 1], ctx, schemas)]
  }

  /** The hook calls made while transforming `node`, in the order they happen. */
  ghost function Visits(node: Node, ctx: Context, schemas: Schemas): seq<Visit>
    decreases node, 1
  {
    ChildVisits(node, ctx, schemas) + (if ctx.hook then [(node, Convert(node, ctx, schemas))] else [])
  }

  /** The hook calls made while transforming `node`'s children. */
  ghost function ChildVisits(node: Node, ctx: Context, schemas: Schemas): seq<Visit>
    decreases node, 0
  {
    match node
    case Root(children) => VisitsAll(children, RootContext(children, ctx), schemas)
    case Element(tagName, _, children) => VisitsAll(children, ElementContext(tagName, ctx), schemas)
    case Unknown(tagName, _, children) => VisitsAll(children, ElementContext(tagName, ctx), schemas)
    case _ => []
  }

  ghost function VisitsAll(children: seq<Node>, ctx: Context, schemas: Schemas): seq<Visit>
    decreases children
  {
    if children == [] then []
    else
      VisitsAll(children[..|children| - 1], ctx, schemas)
        + Visits(children[|children| - 1], ctx, schemas)
  }
}
