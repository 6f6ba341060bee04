/**
 * The converter of lib/index.js, step by step as the source runs it: the root's
 * `while` loop over its children, the element's `for` loop that assigns into and
 * deletes from its attribute object, and `appendAll` pushing one result per
 * child. Each method returns what the source returns and, as a ghost
 * out-parameter, the calls it makes to the `afterTransform` hook; both are
 * proved equal to the functions of module Semantics.
 */
module HastToTiptap {
  import opened Optional
  import opened JsValue
  import opened JsObject
  import opened Hast
  import opened PropertyInfo
  import opened Tiptap
  import opened Semantics

  /** The caller's options: a forced namespace and whether a hook is given. */
  datatype Options = Options(namespace: Option<string>, afterTransform: bool)

  /** What `appendAll` produces: a result, or the `Unhandled case` error it throws. */
  datatype Appended = Appended(result: Tiptap) | Unhandled

  /** `toTiptap(node, options)`: never fails. */
  method ToTiptap(node: Node, options: Options, schemas: Schemas) returns (r: Tiptap, ghost trace: seq<Visit>)
    ensures r == Convert(node, Context(options.namespace, None, options.afterTransform), schemas)
    ensures trace == Visits(node, Context(options.namespace, None, options.afterTransform), schemas)
  {
    r, trace := Transform(node, Context(options.namespace, None, options.afterTransform), schemas);
  }

  /** `transform`: convert the node, then report it to the hook. */
  method Transform(node: Node, ctx: Context, schemas: Schemas) returns (r: Tiptap, ghost trace: seq<Visit>)
    decreases node, 2
    ensures r == Convert(node, ctx, schemas)
    ensures trace == Visits(node, ctx, schemas)
  {
    r, trace := One(node, ctx, schemas);
    if ctx.hook {
      trace := trace + [(node, r)];
    }
  }

  /** `one`: dispatch on the node's type; unknown types go to `element`. */
  method One(node: Node, ctx: Context, schemas: Schemas) returns (r: Tiptap, ghost trace: seq<Visit>)
    decreases node, 1
    ensures r == Convert(node, ctx, schemas)
    ensures trace == ChildVisits(node, ctx, schemas)
  {
    match node
    case Root(children) =>
      r, trace := Root(children, ctx, schemas);
    case Text(value) =>
      r, trace := Leaf(value), [];
    case Element(tagName, props, children) =>
      r, trace := Element(tagName, props, children, ctx, schemas);
    case Doctype =>
      r, trace := Leaf(""), [];
    case Comment(_) =>
      r, trace := Leaf(""), [];
    case Unknown(tagName, props, children) =>
      r, trace := Element(tagName, props, children, ctx, schemas);
  }

  /** `root`: infer the namespace from the `html` children, then append all children. */
  method Root(children: seq<Node>, ctx: Context, schemas: Schemas) returns (r: Tiptap, ghost trace: seq<Visit>)
    decreases children, 1
    ensures r == Convert(Node.Root(children), ctx, schemas)
    ensures trace == VisitsAll(children, RootContext(children, ctx), schemas)
  {
    var ctxNamespace := ctx.namespace;
    var namespace := ctxNamespace;
    var index := 0;
    while index < |children|
      invariant 0 <= index <= |children|
      invariant namespace == ScanNamespace(children[..index], ctxNamespace)
    {
      var child := children[index];
      if child.Element? && child.tagName == Some("html") {
        if ctxNamespace.None? {
          var xmlns := Get(child.properties, "xmlns").GetOr(Undef);
          var s := ToJsString(if Truthy(xmlns) then xmlns else Str(""));
          namespace := Some(if s == "" then HTML else s);
        }
      }
      assert children[..index + 1][..index] == children[..index];
      index := index + 1;
    }
    assert children[..index] == children;
    var out;
    out, trace := AppendAll(Tree("div", [], []), children, Context(namespace, namespace, ctx.hook), schemas);
    r := out.result;
  }

  /** `element`: tag and namespace, the attribute loop, then the children. */
  method Element(tagName: Option<string>, properties: Properties, children: seq<Node>,
                 ctx: Context, schemas: Schemas) returns (r: Tiptap, ghost trace: seq<Visit>)
    decreases children, 1
    ensures r == ConvertElement(tagName, properties, children, ctx, schemas)
    ensures trace == VisitsAll(children, ElementContext(tagName, ctx), schemas)
  {
    var impliedNamespace := ImpliedNamespace(ctx);
    var tag := ElementTag(tagName, impliedNamespace);
    impliedNamespace := SwitchedNamespace(impliedNamespace, tag);
    var schema := SchemaFor(schemas, impliedNamespace);
    var propertiesClone := AddAttributes(schema, properties);
    var childCtx := ctx.(impliedNamespace := impliedNamespace);
    var out;
    out, trace := AppendAll(Tree(tag, propertiesClone, []), children, childCtx, schemas);
    r := out.result;
  }

  /** The element's loop over `Object.keys(properties)`, building its attribute object. */
  method AddAttributes(schema: Schema, properties: Properties) returns (propertiesClone: Obj<PropValue>)
    ensures propertiesClone == Attributes(schema, properties)
  {
    propertiesClone := [];
    var props := Keys(properties);
    for i := 0 to |props|
      invariant propertiesClone == FoldProperties(schema, properties, props[..i])
    {
      var key := props[i];
      var info := Find(schema, key);
      var value := Get(properties, key).GetOr(Undef);
      if value.Arr? {
        value := Str(Join(value.items, if info.commaSeparated then ", " else " "));
      }
      assert value == Prepare(info, Get(properties, key).GetOr(Undef));
      propertiesClone := AssignAttribute(propertiesClone, info, value);
      FoldPrefix(schema, properties, props, i);
    }
    assert props[..|props|] == props;
  }

  /**
   * One turn's chain of assignments to and deletions from the attribute object.
   * `mustUseProperty` only writes a field of the result array that is not one of
   * its elements, so it does not appear here; the chain runs regardless.
   */
  method AssignAttribute(propertiesClone: Obj<PropValue>, info: Info, value: PropValue) returns (r: Obj<PropValue>)
    ensures r == Apply(propertiesClone, info.attribute, Decide(info, value))
  {
    if info.boolean || (info.overloadedBoolean && value.Bool?) {
      if Truthy(value) {
        r := Set(propertiesClone, info.attribute, Str(""));
      } else {
        r := Delete(propertiesClone, info.attribute);
      }
    } else if info.booleanish {
      r := Set(propertiesClone, info.attribute, value);
    } else if value == Bool(true) {
      r := Set(propertiesClone, info.attribute, Str(""));
    } else if Truthy(value) || value == Int(0) || value == Str("") {
      r := Set(propertiesClone, info.attribute, value);
    } else {
      r := propertiesClone;
    }
  }

  /**
   * `appendAll`: a tree gets one more element per child; a bare string with a
   * single child is replaced by that child's result; more children than that
   * under a string is the one error the converter has.
   */
  method AppendAll(node: Tiptap, children: seq<Node>, ctx: Context, schemas: Schemas)
    returns (r: Appended, ghost trace: seq<Visit>)
    decreases children, 0
    ensures children == [] ==> r == Appended(node)
    ensures children != [] && node.Tree? ==>
      r == Appended(Tree(node.tag, node.attributes, node.children + ConvertAll(children, ctx, schemas)))
    ensures |children| == 1 && node.Leaf? ==> r == Appended(Convert(children[0], ctx, schemas))
    ensures |children| > 1 && node.Leaf? ==> r == Unhandled
    ensures children == [] ==> trace == []
    ensures children != [] && node.Tree? ==> trace == VisitsAll(children, ctx, schemas)
    ensures |children| == 1 && node.Leaf? ==> trace == Visits(children[0], ctx, schemas)
    ensures |children| > 1 && node.Leaf? ==> trace == []
  {
    if |children| == 0 {
      return Appended(node), [];
    }
    if node.Tree? {
      var pushed := node.children;
      trace := [];
      for i := 0 to |children|
        invariant pushed == node.children + ConvertAll(children[..i], ctx, schemas)
        invariant trace == VisitsAll(children[..i], ctx, schemas)
      {
        var t;
        ghost var visits;
        t, visits := Transform(children[i], ctx, schemas);
        assert children[..i + 1][..i] == children[..i];
        pushed := pushed + [t];
        trace := trace + visits;
      }
      assert children[..|children|] == children;
      return Appended(Tree(node.tag, node.attributes, pushed)), trace;
    }
    if |children| == 1 {
      var t;
      t, trace := Transform(children[0], ctx, schemas);
      return Appended(t), trace;
    }
    return Unhandled, [];
  }
}
