# hast-util-to-tiptap, modelled in Dafny

`toTiptap` turns a hast syntax tree (nodes typed `root`, `element`, `text`,
`comment`, `doctype`) into a nested-array "tiptap" value. Each node becomes
either a string or `[tag, attributes, ...children]`. This project models that
converter (`lib/index.js`) and proves what it computes.

The model has two layers.

- **Module `HastToTiptap`** follows the source step by step, and each method is
  proved to compute the functions of `Semantics`:
  - `ToTiptap`, `Transform` and `One` are the recursive dispatch;
  - `Root` has the `while` loop that overwrites the namespace;
  - `Element`, with `AddAttributes` and `AssignAttribute`, has the `for` loop
    that assigns into and deletes from the attribute object;
  - `AppendAll` pushes one result per child.

  Each method also returns, as a ghost out-parameter, the list of
  `afterTransform` calls it makes.
- **Module `Semantics`** states the meaning as pure functions:
  - `Convert` and `ConvertAll`: what a node becomes;
  - `Visits`: which `(node, result)` pairs the hook receives, in which order;
  - the namespace rules: `ImpliedNamespace`, `ElementTag`, `SwitchedNamespace`,
    `ScanNamespace`, `XmlnsNamespace`;
  - the attribute rules: `Prepare`, `Decide`, `Apply`, `FoldProperties`,
    `Attributes`.

The lemma modules prove the converter's rules about those functions:

- `AttributeLemmas`: the decision chain, array joining, which write wins, and the order of the attribute keys;
- `NamespaceLemmas`: the root's namespace inference and the element tag and
  namespace rules;
- `TraversalLemmas`: the root shape, leaf results, the post-order hook trace, and that every result the hook receives is part of the output;
- `Examples`: the cases of `test/index.js`.

The data model:

- `Hast.Node` is the input tree. A node of any other type is `Unknown`, carrying
  the fields `element` reads from it.
- `Tiptap.Tiptap` is the output: `Leaf(string)`, or `Tree(tag, attributes, children)`.
- Property values are `JsValue.PropValue`: strings, integers, `NaN`, booleans,
  arrays of strings, `null` and `undefined`. JavaScript truthiness and `String(v)`
  are written out for them.
- Objects (`properties`, `propertiesClone`) are ordered association lists with
  JavaScript object semantics (`JsObject`):
  - assigning an existing key keeps its position;
  - assigning a new key appends it;
  - `delete` removes the key.
- `property-information`'s `find` is a lookup in one of two abstract schema tables
  (`PropertyInfo.Schemas`), passed to every operation. Every result holds for
  whatever the tables contain; the example lemmas state the entries they rely on
  as preconditions.
- The namespaces are the two constants `HTML` and `SVG`.

The root's loop over its children (lib/index.js:111-125) keeps scanning after the
first `html` child, so the **last** `html` child decides the namespace. The
comment at lib/index.js:120 says "first". The model follows the code, and
`NamespaceLemmas.LaterHtmlChildOverrides` shows the difference on two `html`
children.

`Root` and `Element` always hand `AppendAll` an array, so the single-child and
`Unhandled case` branches of `appendAll` are never reached from them. Their
`out.result` is well-formed only because `AppendAll`'s contract rules out
`Unhandled` for a tree, so `ToTiptap` returns a result for every input.

## Model

| member | source | states |
|---|---|---|
| HastToTiptap.ToTiptap | lib/index.js:58-60 | the result is `Convert` of the node in a context with the given namespace option, no implied namespace, and the hook flag; the hook calls are `Visits` of that |
| HastToTiptap.Transform | lib/index.js:67-71 | the result is `Convert(node, ctx)`; the hook calls are the children's calls followed by `(node, result)` when a hook is given |
| HastToTiptap.One | lib/index.js:78-94 | dispatch on node type: root, text, element, doctype, comment; any other type is handled as an element; the result equals `Convert` |
| HastToTiptap.Root | lib/index.js:103-144 | the loop's namespace equals `ScanNamespace` of the children seen so far; the result is `["div", {}]` plus every child converted in the inferred namespace |
| HastToTiptap.Element | lib/index.js:188-295 | the tag, the schema choice, the attribute object and the children equal `ConvertElement`; the hook calls are the children's calls in the element's child context |
| HastToTiptap.AddAttributes | lib/index.js:235-292 | after the loop over `Object.keys(properties)` the attribute object is `Attributes(schema, properties)`, the fold of one `ApplyProperty` per key in key order |
| HastToTiptap.AssignAttribute | lib/index.js:273-291 | the chain of assignments and deletions does to the attribute object exactly what `Decide` chooses for that schema entry and value |
| HastToTiptap.AppendAll | lib/index.js:305-335 | no children: the node unchanged; under an array: the old elements followed by one converted result per child, in order, with the children's hook calls concatenated; under a string: the single child's result, or `Unhandled` when there are more children |
| Semantics.Convert | lib/index.js:67-94 | computes what `transform(node, ctx)` returns: a root becomes `["div", {}]` followed by its children converted in the root's context; text its value; comment and doctype `""`; an element or a node of any other type what `element` builds. Its properties are the `TraversalLemmas` and `NamespaceLemmas` rows and every `HastToTiptap` method's ensures |
| Semantics.ConvertElement | lib/index.js:188-295 | computes what `element(node, ctx)` returns: the defaulted tag, the attributes built with the schema of the element's namespace, and the children converted in the element's child context |
| Semantics.ScanNamespace | lib/index.js:111-125 | computes the namespace after the root's loop over a prefix of the children: with no option, each `html` element child overwrites it with its `xmlns` rule; properties in the `NamespaceLemmas` rows |
| Semantics.RootContext | lib/index.js:139-143 | computes the root's child context: the scanned namespace as both `namespace` and `impliedNamespace`, the hook unchanged |
| Semantics.OrElse | lib/index.js:190 | computes JavaScript `a or b` on optional strings: `a` when it is present and non-empty, `b` otherwise |
| Semantics.ElementNamespace | lib/index.js:190-204 | computes the element's namespace: the implied namespace after the fallback to `ctx.namespace`, switched to SVG by an `svg` tag under an absent or HTML namespace; used for both the schema and the children |
| Semantics.IsHtmlElement | lib/index.js:114 | computes the root scan's test: an element node whose tag name is `html` |
| Semantics.Separator | lib/index.js:259 | computes the join separator: `", "` for a comma-separated property, `" "` otherwise |
| PropertyInfo.Find | lib/index.js:254 | computes `find(schema, key)` as a lookup in the schema's abstract table |
| JsValue.Decimal | lib/index.js:122 | computes `String(n)` for an integer: a minus sign for a negative number, then its decimal digits; `DecimalRoundTrip` reads it back |
| Semantics.ImpliedNamespace | lib/index.js:190 | computes the implied namespace of `ctx`, falling back to `ctx.namespace` when the implied namespace is absent or empty |
| Semantics.ElementTag | lib/index.js:191-195 | computes the element's tag: its own `tagName`, or `g` when the implied namespace is SVG and `div` otherwise |
| Semantics.SwitchedNamespace | lib/index.js:197-204 | computes the namespace after the `svg` check: an `svg` tag under an absent or HTML namespace switches it to SVG; anything else keeps it |
| Semantics.SchemaFor | lib/index.js:212 | computes the schema choice: the SVG schema exactly when the namespace is SVG, the HTML schema otherwise |
| Semantics.ElementContext | lib/index.js:294 | computes `{ ...ctx, impliedNamespace }`: the element's namespace as the children's implied namespace, everything else unchanged |
| Semantics.Decide | lib/index.js:273-291 | computes which branch of the attribute chain runs for a schema entry and a prepared value: write `""`, delete, write the value, or do nothing; its full table is `AttributeLemmas.DecisionTable` |
| Semantics.Apply | lib/index.js:273-291 | computes the branch's effect on the attribute object: a write is `o[a] = v`, a removal `delete o[a]`, a skip leaves it as it was |
| Semantics.ApplyProperty | lib/index.js:254-291 | computes one turn of the attribute loop: look up the key, prepare its value, decide, and apply to that key's attribute name |
| Semantics.Attributes | lib/index.js:235-292 | computes the attribute object an element builds: one `ApplyProperty` per key of `Object.keys(properties)`, in order, from `{}` |
| Semantics.Visits | lib/index.js:67-71 | computes the hook calls of `transform(node, ctx)`: the children's calls, then `(node, result)` when a hook is given |
| Semantics.ChildVisits | lib/index.js:139-143 | computes the hook calls made for a node's children: those of every child in the context `root` or `element` hands on; none for text, comment and doctype |
| Semantics.VisitsAll | lib/index.js:316-318 | computes the hook calls of converting a list of children: each child's calls, one child after the other |
| JsValue.Truthy | lib/index.js:122 | computes JavaScript truthiness: `""`, `0`, `NaN`, `false`, `null` and `undefined` are falsy, everything else truthy |
| JsValue.Join | lib/index.js:259 | computes `Array.prototype.join(sep)` on strings: the elements with one separator between neighbours, `""` for no elements |
| JsValue.ToJsString | lib/index.js:122 | computes `String(v)`: a string unchanged, an integer in decimal, `NaN`, `true`/`false`, `null`, `undefined`, and an array joined with `","` |
| Semantics.XmlnsNamespace | lib/index.js:122 | the namespace is never empty; a falsy `xmlns` gives the HTML namespace; a non-empty string `xmlns` is taken as it is |
| Semantics.Prepare | lib/index.js:256-260 | the prepared value is never an array; a non-array value is unchanged |
| Semantics.Effect | lib/index.js:254-291 | a write never stores an array |
| Semantics.FoldProperties | lib/index.js:238-292 | the attribute object built from any key list has unique keys and holds no array value |
| Semantics.ConvertAll | lib/index.js:316-318 | one result per child, the `i`-th being the `i`-th child converted in the same context |
| JsObject.Keys | lib/index.js:235 | `Object.keys` has one entry per object entry |
| JsObject.Get | lib/index.js:256 | a lookup misses exactly when the key is absent |
| JsObject.Set | lib/index.js:275-288 | after `o[k] = v`, key `k` holds `v` and every other key is unchanged; an existing key keeps its place and a new key is appended; unique keys are preserved |
| JsObject.Delete | lib/index.js:278 | after `delete o[k]`, `k` is absent, every other key keeps its value, and the remaining keys keep their order (`Keys` of the result is `Without(Keys(o), k)`); deleting an absent key changes nothing; unique keys are preserved |
| JsObject.Without | lib/index.js:278 | the key list with `k` filtered out holds exactly the other keys |
| JsValue.Digits | lib/index.js:122 | the decimal digits of a number are non-empty, all digits, with no leading zero |
| JsValue.DigitsRoundTrip | lib/index.js:122 | reading back the digits of `n` gives `n` |
| JsValue.DecimalRoundTrip | lib/index.js:122 | `String(n)` of an integer, read back, gives `n` |
| AttributeLemmas.DecisionTable | lib/index.js:273-291 | the full decision chain: the boolean rule writes `""` or deletes; booleanish stores the value as it is; `true` gives `""`; a truthy value, `0` or `""` is stored; `false`, `NaN`, `null` and `undefined` are skipped; only the boolean rule deletes |
| AttributeLemmas.MustUsePropertyDoesNotSuppress | lib/index.js:262-291 | the decision is the same with or without `mustUseProperty`; a truthy boolean property still becomes `""` |
| AttributeLemmas.ArraysAreJoined | lib/index.js:258-260 | arrays are joined with `", "` when comma-separated and with `" "` otherwise |
| AttributeLemmas.ApplyPropertyIsLocal | lib/index.js:273-291 | one key changes only the entry of its own attribute: a write stores its value, a removal deletes it, a skip leaves the object as it was |
| AttributeLemmas.UntouchedIsAbsent | lib/index.js:238-292 | an attribute that no key writes or removes is absent after the loop |
| AttributeLemmas.LastTouchWins | lib/index.js:238-292 | after the loop, an attribute holds what the last key that writes or removes it left |
| AttributeLemmas.LastTouchDecides | lib/index.js:238-292 | both cases for every attribute: absent when untouched, otherwise decided by the last touching key |
| AttributeLemmas.AttributesByLastTouch | lib/index.js:235-292 | the same for an element's whole property object, whose attribute keys are unique |
| AttributeLemmas.KeyOrderWithoutRemovals | lib/index.js:238-292 | when no property deletes an attribute, the attribute object's keys are the written attribute names in the order each was first written |
| AttributeLemmas.AttributesKeyOrder | lib/index.js:235-292 | the same for an element's whole property object |
| NamespaceLemmas.OptionNamespaceKept | lib/index.js:121-123 | a given namespace option is never overwritten by the scan |
| NamespaceLemmas.NoHtmlChildKeepsNamespace | lib/index.js:111-125 | without `html` element children the namespace stays as it was given |
| NamespaceLemmas.LastHtmlChildWins | lib/index.js:111-125 | without an option, the last `html` element child's `xmlns` rule sets the namespace |
| NamespaceLemmas.RootNamespace | lib/index.js:104-143 | the root passes one namespace as both `namespace` and `impliedNamespace` and keeps the hook; an option is kept; with no `html` child the option is kept; otherwise the last `html` child decides |
| NamespaceLemmas.XmlnsRendering | lib/index.js:122 | an integer `xmlns` other than `0` gives its decimal rendering, which reads back as that integer; `true` gives `"true"`; an array gives its elements joined with `","`, or the HTML namespace when that join is empty |
| NamespaceLemmas.LaterHtmlChildOverrides | lib/index.js:111-125 | with two `html` children of different `xmlns`, the second one's namespace is used |
| NamespaceLemmas.ElementTagDefault | lib/index.js:189-195 | an element keeps its own tag; without one it is `g` exactly when the implied namespace is SVG and `div` exactly otherwise |
| NamespaceLemmas.ElementNamespaceRules | lib/index.js:197-294 | `svg` under an unset or HTML namespace switches schema and children to SVG; otherwise children get the implied namespace unchanged; the schema follows the children's namespace; only `impliedNamespace` changes; children are converted one by one in order |
| NamespaceLemmas.SvgIsKept | lib/index.js:197-212 | under SVG every element uses the SVG schema and passes SVG on to its children |
| NamespaceLemmas.UnknownIsElement | lib/index.js:91-92 | a node of unknown type converts like an element with the same tag, properties and children |
| TraversalLemmas.RootShape | lib/index.js:129-143 | the root is `div` with `{}` and exactly one result per child, in order, in the root's namespace; no children give exactly `["div", {}]` |
| TraversalLemmas.LeafResults | lib/index.js:153-178 | text gives its value; comment and doctype give `""`; none of them visits children |
| TraversalLemmas.NoHookNoVisits | lib/index.js:69 | without a hook no call is made anywhere in the tree |
| TraversalLemmas.NoHookNoVisitsAll | lib/index.js:316-318 | the same for a list of children |
| TraversalLemmas.VisitsArePostOrder | lib/index.js:67-71 | with a hook, the nodes reported are the tree in post-order, one per node, and the last call is the node itself with its result |
| TraversalLemmas.VisitsAllArePostOrder | lib/index.js:316-318 | the children's calls are their post-orders one after the other |
| TraversalLemmas.VisitsInOutput | lib/index.js:67-71 | every result the hook receives is part of the final output: the output of the node itself or a result nested inside it |
| TraversalLemmas.VisitsAllInOutput | lib/index.js:316-318 | every result the hook receives while converting a list of children is one of the children's results or nested inside one |
| Examples.EmptyRoot | test/index.js:20-25 | an empty root gives `["div",{}]` |
| Examples.RootWithDocumentElement | test/index.js:27-38 | a root with an `html` element gives `["div",{},["html",{}]]` |
| Examples.TextNode | test/index.js:62-66 | a text node gives its value |
| Examples.PlainElement | test/index.js:68-72 | `h('div')` gives `["div",{}]` |
| Examples.UnknownNodes | test/index.js:74-100 | an unknown node gives `div`, or `g` under the SVG option, with its children converted |
| Examples.TextChildren | test/index.js:102-106 | text children are converted in order |
| Examples.IdAndClass | test/index.js:108-112 | `id` and `class` become attributes in order |
| Examples.SvgElements | test/index.js:114-120 | under the SVG option attributes come from the SVG schema and children stay in SVG |
| Examples.InputWithAttributes | test/index.js:122-129 | `disabled: true` gives `""`; `value` is kept |
| Examples.CheckedIsStillAnAttribute | test/index.js:131-138 | `checked: true`, which must be set as a property, still gives `"checked": ""` |
| Examples.FalseBooleanIsOmitted | test/index.js:140-151 | a `false` boolean attribute is left out |
| Examples.SpaceSeparated | test/index.js:153-158 | `["foo","bar"]` becomes `"foo bar"` |
| Examples.CommaSeparated | test/index.js:160-167 | a comma-separated `accept` becomes `"image/*, .doc"` |
| Examples.CommentNode | test/index.js:176-181 | a comment gives `""` |
| Examples.EchoLink | test/index.js:190 | `h('a.echo', {download: true}, 'foxtrot')` gives `["a",{"class":"echo","download":""},"foxtrot"]` |
| Examples.NestedNodes | test/index.js:183-197 | nested elements and texts give the nested result |
| Examples.BooleanishValues | test/index.js:307-326 | `aria-checked` keeps `true`, `false` and `"mixed"` as they are |
| Examples.DataPropertiesOmitted | test/index.js:328-340 | a plain property with `false` or `NaN` is left out |
| Examples.DataPropertyTrue | test/index.js:349-354 | a plain property with `true` becomes `""` |
| Examples.DataPropertiesKept | test/index.js:342-368 | a plain property with `0`, `""` or a string is kept as it is |
| Examples.DigitDataProperty | test/index.js:370-375 | `data123` becomes the attribute `data-123` with its value |
| Examples.HookOrder | test/index.js:377-394 | the hook sees the text, then `title`, then `html`, each with its result |

## Left out

- The write `result[property] = value` (lib/index.js:262-265) is not modelled. It sets a field of the result array that is not an element, so it never appears in the output. The model keeps only its effect on control flow: none, because the attribute chain always runs.
- `property-information`'s tables and `find` are not part of this model. They include the `dataTest` to `data-test` name conversion. `find` is an abstract lookup, and the example lemmas state the entries they use.
- `web-namespaces` appears only as the two namespace constants.
- JavaScript numbers are integers plus a `NaN` marker. Floating point and exponent formatting in `String(n)` are not modelled, and array elements are strings.
- JavaScript puts integer-like object keys first in `Object.keys`. The model keeps insertion order for every key.
- `{...options}` copies every option into the context. Only `namespace` and the presence of `afterTransform` are modelled, because they are the documented options. An undocumented `impliedNamespace` option would be copied too and then read by `element` (lib/index.js:190); it is not modelled, and `ToTiptap` starts with no implied namespace.
- `console.error` before the throw (lib/index.js:328) is I/O and is left out. The throw is the `Unhandled` result.
- The `afterTransform` hook is an arbitrary callback in the source. Here it is a ghost trace of `(node, result)` pairs. A callback that mutates the value it receives would change the output; the model does not capture that.
- `AppendAll` pushes onto the array in place, and `Element` fills `propertiesClone` in place; the model uses values, so aliasing of those arrays and objects is not modelled.
- The commented-out DOM code (for example lib/index.js:131-137 and 206-211) is left out.
- test/index.js is not part of this model apart from its assertions, restated as the `Examples` lemmas. Its fixture loading, JSDOM setup and JSON serialisation are I/O. The commented-out cases are left out too.
