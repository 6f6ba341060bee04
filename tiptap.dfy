/**
 * The output value: a string, or the array `[tag, attributes, ...children]`.
 * A tree always has its tag and its attribute object, so it has at least two
 * array elements.
 */
module Tiptap {
  import opened JsValue
  import opened JsObject

  datatype Tiptap =
    | Leaf(text: string)
    | Tree(tag: string, attributes: Obj<PropValue>, children: seq<Tiptap>)
}
