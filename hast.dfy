/**
 * The input syntax tree (hast). A node's `type` selects the constructor;
 * `Unknown` is any node whose type is none of the five known ones, carrying the
 * fields the element transformer reads from it. An absent `children` or
 * `properties` is the empty list or object, as the destructuring defaults make it.
 */
module Hast {
  import opened Optional
  import opened JsValue
  import opened JsObject

  type Properties = Obj<PropValue>

  datatype Node =
    | Root(children: seq<Node>)
    | Element(tagName: Option<string>, properties: Properties, children: seq<Node>)
    | Text(value: string)
    | Comment(value: string)
    | Doctype
    | Unknown(tagName: Option<string>, properties: Properties, children: seq<Node>)
}
