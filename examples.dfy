/**
 * The cases of test/index.js, stated about the model. The schema entries each
 * case relies on are the lemma's requires; h('tag', ...) is written out as an
 * element node holding the properties the case passes, so a case whose value
 * hastscript itself would drop (such as `NaN`) exercises the converter's own
 * branch for that value.
 */
module Examples {
  import opened Optional
  import opened JsValue
  import opened JsObject
  import opened Hast
  import opened PropertyInfo
  import opened Tiptap
  import opened Semantics

  /** The context of a call without options. */
  const NoOptions: Context := Context(None, None, false)

  /** A schema entry with none of the flags set. */
  function PlainInfo(attribute: string, property: string): Info {
    Info(attribute, property, false, false, false, false, false)
  }

  /** One more turn of the attribute loop. */
  lemma FoldStep(schema: Schema, props: Properties, keys: seq<string>, k: string)
    ensures FoldProperties(schema, props, keys + [k])
         == ApplyProperty(FoldProperties(schema, props, keys), schema, props, k)
  {
    assert (keys + [k])[..|keys|] == keys;
  }

  /** The attribute object of an element with one property. */
  lemma OneProperty(schema: Schema, k: string, v: PropValue)
    ensures var info := Find(schema, k);
      Attributes(schema, [(k, v)]) == Apply([], info.attribute, Decide(info, Prepare(info, v)))
  {
    FoldStep(schema, [(k, v)], [], k);
    assert [] + [k] == [k];
  }

  /** The attribute object of an element with two properties. */
  lemma TwoProperties(schema: Schema, k1: string, v1: PropValue, k2: string, v2: PropValue)
    requires k1 != k2
    ensures var i1 := Find(schema, k1);
            var i2 := Find(schema, k2);
      Attributes(schema, [(k1, v1), (k2, v2)])
        == Apply(Apply([], i1.attribute, Decide(i1, Prepare(i1, v1))), i2.attribute, Decide(i2, Prepare(i2, v2)))
  {
    var props := [(k1, v1), (k2, v2)];
    assert Keys(props) == [k1, k2];
    assert Get(props, k1) == Some(v1);
    assert Get(props, k2) == Some(v2);
    FoldStep(schema, props, [], k1);
    assert [] + [k1] == [k1];
    FoldStep(schema, props, [k1], k2);
    assert [k1] + [k2] == [k1, k2];
  }

  /** Two strings joined. */
  lemma JoinPair(a: string, b: string, sep: string)
    ensures Join([a, b], sep) == a + sep + b
  {
    assert [a, b][1..] == [b];
  }

  /** Writing a second, different attribute appends it. */
  lemma SetSecond(k1: string, v1: PropValue, k2: string, v2: PropValue)
    requires k1 != k2
    ensures Set([(k1, v1)], k2, v2) == [(k1, v1), (k2, v2)]
  {
    assert [(k1, v1)][1..] == [];
  }

  /** An element with a tag of its own other than `svg`, converted without options. */
  lemma HtmlElement(tag: string, props: Properties, children: seq<Node>, schemas: Schemas)
    requires tag != "svg"
    ensures Convert(Element(Some(tag), props, children), NoOptions, schemas)
         == Tree(tag, Attributes(schemas.html, props), ConvertAll(children, NoOptions, schemas))
  {
    assert ElementContext(Some(tag), NoOptions) == NoOptions;
  }

  /** The same element without children. */
  lemma ChildlessHtmlElement(tag: string, props: Properties, schemas: Schemas)
    requires tag != "svg"
    ensures Convert(Element(Some(tag), props, []), NoOptions, schemas) == Tree(tag, Attributes(schemas.html, props), [])
  {
    HtmlElement(tag, props, [], schemas);
  }

  /** A childless element with a single scalar property, converted without options. */
  lemma OnePropertyElement(tag: string, k: string, v: PropValue, schemas: Schemas)
    requires tag != "svg" && !v.Arr?
    ensures var info := Find(schemas.html, k);
      Convert(Element(Some(tag), [(k, v)], []), NoOptions, schemas) == Tree(tag, Apply([], info.attribute, Decide(info, v)), [])
  {
    ChildlessHtmlElement(tag, [(k, v)], schemas);
    OneProperty(schemas.html, k, v);
  }

  /** An element whose two properties both become attributes, in order. */
  lemma TwoAttributesElement(tag: string, k1: string, v1: PropValue, w1: PropValue,
                             k2: string, v2: PropValue, w2: PropValue, children: seq<Node>, schemas: Schemas)
    requires tag != "svg" && k1 != k2
    requires Find(schemas.html, k1).attribute != Find(schemas.html, k2).attribute
    requires Decide(Find(schemas.html, k1), Prepare(Find(schemas.html, k1), v1)) == Write(w1)
    requires Decide(Find(schemas.html, k2), Prepare(Find(schemas.html, k2), v2)) == Write(w2)
    ensures Convert(Element(Some(tag), [(k1, v1), (k2, v2)], children), NoOptions, schemas)
         == Tree(tag, [(Find(schemas.html, k1).attribute, w1), (Find(schemas.html, k2).attribute, w2)],
                 ConvertAll(children, NoOptions, schemas))
  {
    HtmlElement(tag, [(k1, v1), (k2, v2)], children, schemas);
    TwoProperties(schemas.html, k1, v1, k2, v2);
    SetSecond(Find(schemas.html, k1).attribute, w1, Find(schemas.html, k2).attribute, w2);
  }

  /** An element with a tag of its own inside SVG content. */
  lemma SvgElement(tag: string, props: Properties, children: seq<Node>, ctx: Context, schemas: Schemas)
    requires ctx.namespace == Some(SVG) && ctx.impliedNamespace in {None, Some(SVG)} && !ctx.hook
    ensures Convert(Element(Some(tag), props, children), ctx, schemas)
         == Tree(tag, Attributes(schemas.svg, props), ConvertAll(children, Context(Some(SVG), Some(SVG), false), schemas))
  {
    assert ElementContext(Some(tag), ctx) == Context(Some(SVG), Some(SVG), false);
  }

  lemma EmptyRoot(schemas: Schemas)
    ensures Convert(Root([]), NoOptions, schemas) == Tree("div", [], [])
  {
  }

  lemma RootWithDocumentElement(schemas: Schemas)
    ensures Convert(Root([Element(Some("html"), [], [])]), NoOptions, schemas)
         == Tree("div", [], [Tree("html", [], [])])
  {
  }

  lemma TextNode(schemas: Schemas)
    ensures Convert(Text("hello world"), NoOptions, schemas) == Leaf("hello world")
  {
  }

  lemma CommentNode(schemas: Schemas)
    ensures Convert(Comment("after"), NoOptions, schemas) == Leaf("")
  {
  }

  lemma UnknownNodes(schemas: Schemas)
    ensures Convert(Unknown(None, [], []), NoOptions, schemas) == Tree("div", [], [])
    ensures Convert(Unknown(None, [], []), Context(Some(SVG), None, false), schemas) == Tree("g", [], [])
    ensures Convert(Unknown(None, [], [Text("value")]), NoOptions, schemas) == Tree("div", [], [Leaf("value")])
  {
  }

  lemma PlainElement(schemas: Schemas)
    ensures Convert(Element(Some("div"), [], []), NoOptions, schemas) == Tree("div", [], [])
  {
    ChildlessHtmlElement("div", [], schemas);
  }

  lemma TextChildren(schemas: Schemas)
    ensures Convert(Element(Some("span"), [], [Text("hello"), Text("world")]), NoOptions, schemas)
         == Tree("span", [], [Leaf("hello"), Leaf("world")])
  {
    HtmlElement("span", [], [Text("hello"), Text("world")], schemas);
    var rs := ConvertAll([Text("hello"), Text("world")], NoOptions, schemas);
    assert Convert(Text("hello"), NoOptions, schemas) == Leaf("hello");
    assert Convert(Text("world"), NoOptions, schemas) == Leaf("world");
    assert rs[0] == Leaf("hello") && rs[1] == Leaf("world");
  }

  lemma IdAndClass(schemas: Schemas)
    requires Find(schemas.html, "id") == PlainInfo("id", "id")
    requires Find(schemas.html, "className") == PlainInfo("class", "className")
    ensures Convert(Element(Some("div"), [("id", Str("foo")), ("className", Arr(["bar"]))], [Text("text")]),
                    NoOptions, schemas)
         == Tree("div", [("id", Str("foo")), ("class", Str("bar"))], [Leaf("text")])
  {
    assert Prepare(Find(schemas.html, "className"), Arr(["bar"])) == Str("bar");
    assert Convert(Text("text"), NoOptions, schemas) == Leaf("text");
    assert ConvertAll([Text("text")], NoOptions, schemas)[0] == Leaf("text");
    TwoAttributesElement("div", "id", Str("foo"), Str("foo"), "className", Arr(["bar"]), Str("bar"),
                         [Text("text")], schemas);
  }

  lemma InputWithAttributes(schemas: Schemas)
    requires Find(schemas.html, "disabled") == Info("disabled", "disabled", false, true, false, false, false)
    requires Find(schemas.html, "value") == PlainInfo("value", "value")
    ensures Convert(Element(Some("input"), [("disabled", Bool(true)), ("value", Str("foo"))], []), NoOptions, schemas)
         == Tree("input", [("disabled", Str("")), ("value", Str("foo"))], [])
  {
    assert ConvertAll([], NoOptions, schemas) == [];
    TwoAttributesElement("input", "disabled", Bool(true), Str(""), "value", Str("foo"), Str("foo"), [], schemas);
  }

  /** `checked` must be set as a property, and still becomes the attribute `""`. */
  lemma CheckedIsStillAnAttribute(schemas: Schemas)
    requires Find(schemas.html, "type") == PlainInfo("type", "type")
    requires Find(schemas.html, "checked") == Info("checked", "checked", true, true, false, false, false)
    ensures Convert(Element(Some("input"), [("type", Str("checkbox")), ("checked", Bool(true))], []), NoOptions, schemas)
         == Tree("input", [("type", Str("checkbox")), ("checked", Str(""))], [])
  {
    assert ConvertAll([], NoOptions, schemas) == [];
    TwoAttributesElement("input", "type", Str("checkbox"), Str("checkbox"), "checked", Bool(true), Str(""), [], schemas);
  }

  lemma FalseBooleanIsOmitted(schemas: Schemas)
    requires Find(schemas.html, "allowFullScreen")
          == Info("allowfullscreen", "allowFullScreen", false, true, false, false, false)
    ensures Convert(Element(Some("div"), [("allowFullScreen", Bool(false))], []), NoOptions, schemas)
         == Tree("div", [], [])
  {
    ChildlessHtmlElement("div", [("allowFullScreen", Bool(false))], schemas);
    OneProperty(schemas.html, "allowFullScreen", Bool(false));
  }

  lemma SpaceSeparated(schemas: Schemas)
    requires Find(schemas.html, "className") == PlainInfo("class", "className")
    ensures Convert(Element(Some("div"), [("className", Arr(["foo", "bar"]))], []), NoOptions, schemas)
         == Tree("div", [("class", Str("foo bar"))], [])
  {
    var info := Find(schemas.html, "className");
    ChildlessHtmlElement("div", [("className", Arr(["foo", "bar"]))], schemas);
    OneProperty(schemas.html, "className", Arr(["foo", "bar"]));
    JoinPair("foo", "bar", " ");
    assert "foo" + " " + "bar" == "foo bar";
    assert Prepare(info, Arr(["foo", "bar"])) == Str("foo bar");
    assert Decide(info, Str("foo bar")) == Write(Str("foo bar"));
  }

  lemma CommaSeparated(schemas: Schemas)
    requires Find(schemas.html, "type") == PlainInfo("type", "type")
    requires Find(schemas.html, "accept") == Info("accept", "accept", false, false, false, false, true)
    ensures Convert(Element(Some("input"), [("type", Str("file")), ("accept", Arr(["image/*", ".doc"]))], []),
                    NoOptions, schemas)
         == Tree("input", [("type", Str("file")), ("accept", Str("image/*, .doc"))], [])
  {
    var acceptInfo := Find(schemas.html, "accept");
    var joined := Str("image/*, .doc");
    JoinPair("image/*", ".doc", ", ");
    assert "image/*" + ", " + ".doc" == "image/*, .doc";
    assert Prepare(acceptInfo, Arr(["image/*", ".doc"])) == joined;
    assert ConvertAll([], NoOptions, schemas) == [];
    TwoAttributesElement("input", "type", Str("file"), Str("file"), "accept", Arr(["image/*", ".doc"]), joined, [], schemas);
  }

  lemma SvgElements(schemas: Schemas)
    requires Find(schemas.svg, "id") == PlainInfo("id", "id")
    requires Find(schemas.svg, "className") == PlainInfo("class", "className")
    ensures Convert(Element(Some("g"), [("id", Str("foo")), ("className", Arr(["bar"]))], [Element(Some("circle"), [], [])]),
                    Context(Some(SVG), None, false), schemas)
         == Tree("g", [("id", Str("foo")), ("class", Str("bar"))], [Tree("circle", [], [])])
  {
    var inner := Context(Some(SVG), Some(SVG), false);
    var circle := Element(Some("circle"), [], []);
    assert ConvertAll([], inner, schemas) == [];
    assert Attributes(schemas.svg, []) == [];
    SvgElement("circle", [], [], inner, schemas);
    assert ConvertAll([circle], inner, schemas)[0] == Tree("circle", [], []);
    SvgElement("g", [("id", Str("foo")), ("className", Arr(["bar"]))], [circle], Context(Some(SVG), None, false), schemas);
    TwoProperties(schemas.svg, "id", Str("foo"), "className", Arr(["bar"]));
    assert Prepare(Find(schemas.svg, "className"), Arr(["bar"])) == Str("bar");
    assert Decide(Find(schemas.svg, "id"), Prepare(Find(schemas.svg, "id"), Str("foo"))) == Write(Str("foo"));
    assert Decide(Find(schemas.svg, "className"), Str("bar")) == Write(Str("bar"));
    assert Apply([], "id", Write(Str("foo"))) == [("id", Str("foo"))];
    SetSecond("id", Str("foo"), "class", Str("bar"));
    assert Attributes(schemas.svg, [("id", Str("foo")), ("className", Arr(["bar"]))])
        == [("id", Str("foo")), ("class", Str("bar"))];
  }

  lemma BooleanishValues(schemas: Schemas)
    requires Find(schemas.html, "ariaChecked") == Info("aria-checked", "ariaChecked", false, false, true, false, false)
    ensures Convert(Element(Some("div"), [("ariaChecked", Bool(true))], []), NoOptions, schemas)
         == Tree("div", [("aria-checked", Bool(true))], [])
    ensures Convert(Element(Some("div"), [("ariaChecked", Bool(false))], []), NoOptions, schemas)
         == Tree("div", [("aria-checked", Bool(false))], [])
    ensures Convert(Element(Some("div"), [("ariaChecked", Str("mixed"))], []), NoOptions, schemas)
         == Tree("div", [("aria-checked", Str("mixed"))], [])
  {
    ChildlessHtmlElement("div", [("ariaChecked", Bool(true))], schemas);
    ChildlessHtmlElement("div", [("ariaChecked", Bool(false))], schemas);
    ChildlessHtmlElement("div", [("ariaChecked", Str("mixed"))], schemas);
    OneProperty(schemas.html, "ariaChecked", Bool(true));
    OneProperty(schemas.html, "ariaChecked", Bool(false));
    OneProperty(schemas.html, "ariaChecked", Str("mixed"));
  }

  /**
   * `false` and `NaN` on a plain property leave no attribute. The `NaN` case is
   * the converter's falsy branch (lib/index.js:287) stated directly.
   */
  lemma DataPropertiesOmitted(schemas: Schemas)
    requires Find(schemas.html, "dataTest") == PlainInfo("data-test", "dataTest")
    ensures Convert(Element(Some("div"), [("dataTest", Bool(false))], []), NoOptions, schemas) == Tree("div", [], [])
    ensures Convert(Element(Some("div"), [("dataTest", NaN)], []), NoOptions, schemas) == Tree("div", [], [])
  {
    var info := PlainInfo("data-test", "dataTest");
    OnePropertyElement("div", "dataTest", Bool(false), schemas);
    assert Decide(info, Bool(false)) == Skip;
    OnePropertyElement("div", "dataTest", NaN, schemas);
    assert Decide(info, NaN) == Skip;
  }

  /** `true` on a plain property becomes the empty attribute. */
  lemma DataPropertyTrue(schemas: Schemas)
    requires Find(schemas.html, "dataTest") == PlainInfo("data-test", "dataTest")
    ensures Convert(Element(Some("div"), [("dataTest", Bool(true))], []), NoOptions, schemas)
         == Tree("div", [("data-test", Str(""))], [])
  {
    var info := PlainInfo("data-test", "dataTest");
    OnePropertyElement("div", "dataTest", Bool(true), schemas);
    assert Decide(info, Bool(true)) == Write(Str(""));
  }

  /** `0`, `""` and other strings on a plain property are kept as they are. */
  lemma DataPropertiesKept(schemas: Schemas)
    requires Find(schemas.html, "dataTest") == PlainInfo("data-test", "dataTest")
    ensures Convert(Element(Some("div"), [("dataTest", Int(0))], []), NoOptions, schemas)
         == Tree("div", [("data-test", Int(0))], [])
    ensures Convert(Element(Some("div"), [("dataTest", Str(""))], []), NoOptions, schemas)
         == Tree("div", [("data-test", Str(""))], [])
    ensures Convert(Element(Some("div"), [("dataTest", Str("data-test"))], []), NoOptions, schemas)
         == Tree("div", [("data-test", Str("data-test"))], [])
  {
    var info := PlainInfo("data-test", "dataTest");
    OnePropertyElement("div", "dataTest", Int(0), schemas);
    assert Decide(info, Int(0)) == Write(Int(0));
    OnePropertyElement("div", "dataTest", Str(""), schemas);
    assert Decide(info, Str("")) == Write(Str(""));
    OnePropertyElement("div", "dataTest", Str("data-test"), schemas);
    assert Decide(info, Str("data-test")) == Write(Str("data-test"));
  }

  lemma DigitDataProperty(schemas: Schemas)
    requires Find(schemas.html, "data123") == PlainInfo("data-123", "data123")
    ensures Convert(Element(Some("div"), [("data123", Str("dataTest"))], []), NoOptions, schemas)
         == Tree("div", [("data-123", Str("dataTest"))], [])
  {
    OnePropertyElement("div", "data123", Str("dataTest"), schemas);
    assert Decide(PlainInfo("data-123", "data123"), Str("dataTest")) == Write(Str("dataTest"));
  }

  lemma EchoLink(schemas: Schemas)
    requires Find(schemas.html, "className") == PlainInfo("class", "className")
    requires Find(schemas.html, "download") == Info("download", "download", false, false, false, true, false)
    ensures Convert(Element(Some("a"), [("className", Arr(["echo"])), ("download", Bool(true))], [Text("foxtrot")]),
                    NoOptions, schemas)
         == Tree("a", [("class", Str("echo")), ("download", Str(""))], [Leaf("foxtrot")])
  {
    var classInfo := Find(schemas.html, "className");
    assert Prepare(classInfo, Arr(["echo"])) == Str("echo");
    assert Convert(Text("foxtrot"), NoOptions, schemas) == Leaf("foxtrot");
    assert ConvertAll([Text("foxtrot")], NoOptions, schemas)[0] == Leaf("foxtrot");
    TwoAttributesElement("a", "className", Arr(["echo"]), Str("echo"), "download", Bool(true), Str(""),
                         [Text("foxtrot")], schemas);
  }

  /** Four children, converted one by one. */
  lemma ConvertFour(c0: Node, c1: Node, c2: Node, c3: Node, r0: Tiptap, r1: Tiptap, r2: Tiptap, r3: Tiptap,
                    ctx: Context, schemas: Schemas)
    requires Convert(c0, ctx, schemas) == r0 && Convert(c1, ctx, schemas) == r1
    requires Convert(c2, ctx, schemas) == r2 && Convert(c3, ctx, schemas) == r3
    ensures ConvertAll([c0, c1, c2, c3], ctx, schemas) == [r0, r1, r2, r3]
  {
    var rs := ConvertAll([c0, c1, c2, c3], ctx, schemas);
    assert rs[0] == r0 && rs[1] == r1 && rs[2] == r2 && rs[3] == r3;
  }

  lemma NestedNodes(schemas: Schemas)
    requires Find(schemas.html, "className") == PlainInfo("class", "className")
    requires Find(schemas.html, "download") == Info("download", "download", false, false, false, true, false)
    ensures Convert(Element(Some("div"), [("className", Arr(["alpha"]))], [
                      Text("bravo "),
                      Element(Some("b"), [], [Text("charlie")]),
                      Text(" delta "),
                      Element(Some("a"), [("className", Arr(["echo"])), ("download", Bool(true))], [Text("foxtrot")])
                    ]), NoOptions, schemas)
         == Tree("div", [("class", Str("alpha"))], [
              Leaf("bravo "),
              Tree("b", [], [Leaf("charlie")]),
              Leaf(" delta "),
              Tree("a", [("class", Str("echo")), ("download", Str(""))], [Leaf("foxtrot")])
            ])
  {
    var a := Element(Some("a"), [("className", Arr(["echo"])), ("download", Bool(true))], [Text("foxtrot")]);
    var b := Element(Some("b"), [], [Text("charlie")]);
    var children := [Text("bravo "), b, Text(" delta "), a];
    var bResult := Tree("b", [], [Leaf("charlie")]);
    var aResult := Tree("a", [("class", Str("echo")), ("download", Str(""))], [Leaf("foxtrot")]);
    var classInfo := Find(schemas.html, "className");
    HtmlElement("div", [("className", Arr(["alpha"]))], children, schemas);
    OneProperty(schemas.html, "className", Arr(["alpha"]));
    assert Prepare(classInfo, Arr(["alpha"])) == Str("alpha");
    assert Decide(classInfo, Str("alpha")) == Write(Str("alpha"));
    assert Attributes(schemas.html, [("className", Arr(["alpha"]))]) == [("class", Str("alpha"))];
    HtmlElement("b", [], [Text("charlie")], schemas);
    assert ConvertAll([Text("charlie")], NoOptions, schemas)[0] == Leaf("charlie");
    assert Convert(b, NoOptions, schemas) == bResult;
    EchoLink(schemas);
    assert Convert(a, NoOptions, schemas) == aResult;
    assert Convert(Text("bravo "), NoOptions, schemas) == Leaf("bravo ");
    assert Convert(Text(" delta "), NoOptions, schemas) == Leaf(" delta ");
    ConvertFour(Text("bravo "), b, Text(" delta "), a, Leaf("bravo "), bResult, Leaf(" delta "), aResult,
                NoOptions, schemas);
  }

  /** The hook sees the text first, then `title`, then `html`, each with its result. */
  lemma HookOrder(schemas: Schemas)
    ensures var text := Text("Hi");
            var title := Element(Some("title"), [], [text]);
            var html := Element(Some("html"), [], [title]);
            Visits(html, Context(None, None, true), schemas)
            == [(text, Leaf("Hi")),
                (title, Tree("title", [], [Leaf("Hi")])),
                (html, Tree("html", [], [Tree("title", [], [Leaf("Hi")])]))]
  {
    var ctx := Context(None, None, true);
    var text := Text("Hi");
    var title := Element(Some("title"), [], [text]);
    var html := Element(Some("html"), [], [title]);
    assert [text][..0] == [] && [title][..0] == [];
    assert ElementContext(Some("title"), ctx) == ctx;
    assert ElementContext(Some("html"), ctx) == ctx;
    assert Visits(text, ctx, schemas) == [(text, Leaf("Hi"))];
    assert VisitsAll([text], ctx, schemas) == [(text, Leaf("Hi"))];
    assert Convert(title, ctx, schemas) == Tree("title", [], [Leaf("Hi")]);
    assert Visits(title, ctx, schemas) == [(text, Leaf("Hi")), (title, Tree("title", [], [Leaf("Hi")]))];
    assert VisitsAll([title], ctx, schemas) == Visits(title, ctx, schemas);
    assert Convert(html, ctx, schemas) == Tree("html", [], [Tree("title", [], [Leaf("Hi")])]);
    assert Visits(html, ctx, schemas) == VisitsAll([title], ctx, schemas) + [(html, Convert(html, ctx, schemas))];
  }
}
