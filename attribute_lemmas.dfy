/**
 * Properties of the element's attribute loop (lib/index.js:238-292): the
 * decision chain, locality of each property, the joining of arrays, and a
 * characterisation of the finished attribute object by the last property that
 * touches each attribute name.
 */
module AttributeLemmas {
  import opened Optional
  import opened JsValue
  import opened JsObject
  import opened Hast
  import opened PropertyInfo
  import opened Semantics

  /** The boolean rule applies: a `boolean` flag, or an overloaded boolean given `true`/`false`. */
  predicate BooleanRule(info: Info, v: PropValue) {
    info.boolean || (info.overloadedBoolean && v.Bool?)
  }

  /**
   * The decision chain as a table over the kinds of value. `v` is a prepared
   * value, so never an array.
   */
  lemma DecisionTable(info: Info, v: PropValue)
    requires !v.Arr?
    ensures BooleanRule(info, v) && Truthy(v) ==> Decide(info, v) == Write(Str(""))
    ensures BooleanRule(info, v) && !Truthy(v) ==> Decide(info, v) == Remove
    ensures !BooleanRule(info, v) && info.booleanish ==> Decide(info, v) == Write(v)
    ensures !BooleanRule(info, v) && !info.booleanish && v == Bool(true) ==> Decide(info, v) == Write(Str(""))
    ensures !BooleanRule(info, v) && !info.booleanish ==>
      (Decide(info, v) == Skip <==> v in {Bool(false), NaN, Null, Undef})
    ensures !BooleanRule(info, v) && !info.booleanish && v !in {Bool(true), Bool(false), NaN, Null, Undef} ==>
      Decide(info, v) == Write(v)
    ensures Decide(info, v) == Remove ==> BooleanRule(info, v)
  {
  }

  /** `mustUseProperty` never changes what happens to the attribute. */
  lemma MustUsePropertyDoesNotSuppress(info: Info, v: PropValue)
    ensures Decide(info.(mustUseProperty := true), v) == Decide(info.(mustUseProperty := false), v)
    ensures info.boolean && Truthy(v) ==> Decide(info.(mustUseProperty := true), v) == Write(Str(""))
  {
  }

  /** Arrays are joined with `", "` for comma-separated properties, else with `" "`. */
  lemma ArraysAreJoined(info: Info, items: seq<string>)
    ensures info.commaSeparated ==> Prepare(info, Arr(items)) == Str(Join(items, ", "))
    ensures !info.commaSeparated ==> Prepare(info, Arr(items)) == Str(Join(items, " "))
  {
  }

  /** One property changes the entry of its own attribute and nothing else. */
  lemma ApplyPropertyIsLocal(attrs: Obj<PropValue>, schema: Schema, props: Properties, key: string)
    ensures forall a :: a != Find(schema, key).attribute ==>
      Get(ApplyProperty(attrs, schema, props, key), a) == Get(attrs, a)
    ensures Effect(schema, props, key).Write? ==>
      Get(ApplyProperty(attrs, schema, props, key), Find(schema, key).attribute)
        == Some(Effect(schema, props, key).value)
    ensures Effect(schema, props, key).Remove? ==>
      Get(ApplyProperty(attrs, schema, props, key), Find(schema, key).attribute) == None
    ensures Effect(schema, props, key).Skip? ==> ApplyProperty(attrs, schema, props, key) == attrs
  {
  }

  /** Property `key` writes or removes attribute `a`. */
  predicate Touches(schema: Schema, props: Properties, key: string, a: string) {
    Find(schema, key).attribute == a && !Effect(schema, props, key).Skip?
  }

  /** What a write or a removal leaves behind. */
  function Outcome(action: Action): Option<PropValue> {
    if action.Write? then Some(action.value) else None
  }

  /** An attribute no property touches is absent after the loop. */
  lemma {:induction false} UntouchedIsAbsent(schema: Schema, props: Properties, keys: seq<string>, a: string)
    requires forall i :: 0 <= i < |keys| ==> !Touches(schema, props, keys[i], a)
    ensures Get(FoldProperties(schema, props, keys), a) == None
  {
    if keys != [] {
      var init := keys[..|keys| - 1];
      var k := keys[|keys| - 1];
      assert forall i :: 0 <= i < |init| ==> init[i] == keys[i];
      UntouchedIsAbsent(schema, props, init, a);
      ApplyPropertyIsLocal(FoldProperties(schema, props, init), schema, props, k);
    }
  }

  /** After the loop, an attribute holds what the last property touching it left. */
  lemma {:induction false} LastTouchWins(schema: Schema, props: Properties, keys: seq<string>, a: string, i: nat)
    requires i < |keys| && Touches(schema, props, keys[i], a)
    requires forall j :: i < j < |keys| ==> !Touches(schema, props, keys[j], a)
    ensures Get(FoldProperties(schema, props, keys), a) == Outcome(Effect(schema, props, keys[i]))
  {
    var init := keys[..|keys| - 1];
    var k := keys[|keys| - 1];
    ApplyPropertyIsLocal(FoldProperties(schema, props, init), schema, props, k);
    if i < |keys| - 1 {
      assert forall j :: 0 <= j < |init| ==> init[j] == keys[j];
      LastTouchWins(schema, props, init, a, i);
    }
  }

  /**
   * An attribute is present after the loop exactly when the last property that
   * touches it writes it, and then it holds the written value.
   */
  lemma LastTouchDecides(schema: Schema, props: Properties, keys: seq<string>, a: string)
    ensures (forall i :: 0 <= i < |keys| ==> !Touches(schema, props, keys[i], a)) ==>
      Get(FoldProperties(schema, props, keys), a) == None
    ensures forall i :: 0 <= i < |keys| && Touches(schema, props, keys[i], a)
                        && (forall j :: i < j < |keys| ==> !Touches(schema, props, keys[j], a)) ==>
      Get(FoldProperties(schema, props, keys), a) == Outcome(Effect(schema, props, keys[i]))
  {
    if forall i :: 0 <= i < |keys| ==> !Touches(schema, props, keys[i], a) {
      UntouchedIsAbsent(schema, props, keys, a);
    }
    forall i | 0 <= i < |keys| && Touches(schema, props, keys[i], a)
               && (forall j :: i < j < |keys| ==> !Touches(schema, props, keys[j], a))
      ensures Get(FoldProperties(schema, props, keys), a) == Outcome(Effect(schema, props, keys[i]))
    {
      LastTouchWins(schema, props, keys, a, i);
    }
  }

  /** The same, for the element's whole property object. */
  lemma AttributesByLastTouch(schema: Schema, props: Properties, a: string)
    ensures UniqueKeys(Attributes(schema, props))
    ensures (forall i :: 0 <= i < |Keys(props)| ==> !Touches(schema, props, Keys(props)[i], a)) ==>
      Get(Attributes(schema, props), a) == None
    ensures forall i :: 0 <= i < |Keys(props)| && Touches(schema, props, Keys(props)[i], a)
                        && (forall j :: i < j < |Keys(props)| ==> !Touches(schema, props, Keys(props)[j], a)) ==>
      Get(Attributes(schema, props), a) == Outcome(Effect(schema, props, Keys(props)[i]))
  {
    LastTouchDecides(schema, props, Keys(props), a);
  }

  /** The attribute names that `keys` write, in loop order, repeats included. */
  function WrittenNames(schema: Schema, props: Properties, keys: seq<string>): seq<string> {
    if keys == [] then []
    else
      var k := keys[|keys| - 1];
      WrittenNames(schema, props, keys[..|keys| - 1])
        + (if Effect(schema, props, k).Write? then [Find(schema, k).attribute] else [])
  }

  /** Each name of `ns` once, where it first occurs. */
  function FirstOccurrences(ns: seq<string>): seq<string> {
    if ns == [] then []
    else
      var before := FirstOccurrences(ns[..|ns| - 1]);
      if ns[|ns| - 1] in before then before else before + [ns[|ns| - 1]]
  }

  /**
   * When no property deletes an attribute, the attribute object lists the
   * written names in the order they were first written: a later write to a name
   * keeps its place.
   */
  lemma {:induction false} KeyOrderWithoutRemovals(schema: Schema, props: Properties, keys: seq<string>)
    requires forall i :: 0 <= i < |keys| ==> !Effect(schema, props, keys[i]).Remove?
    ensures Keys(FoldProperties(schema, props, keys)) == FirstOccurrences(WrittenNames(schema, props, keys))
  {
    if keys != [] {
      var init := keys[..|keys| - 1];
      assert forall i :: 0 <= i < |init| ==> init[i] == keys[i];
      KeyOrderWithoutRemovals(schema, props, init);
      var k := keys[|keys| - 1];
      var before := FoldProperties(schema, props, init);
      var w := WrittenNames(schema, props, init);
      assert FoldProperties(schema, props, keys) == ApplyProperty(before, schema, props, k);
      if Effect(schema, props, k).Write? {
        var ns := w + [Find(schema, k).attribute];
        assert WrittenNames(schema, props, keys) == ns;
        assert ns[..|ns| - 1] == w;
        assert Keys(ApplyProperty(before, schema, props, k))
            == if ns[|ns| - 1] in Keys(before) then Keys(before) else Keys(before) + [ns[|ns| - 1]];
      } else {
        assert WrittenNames(schema, props, keys) == w;
        assert ApplyProperty(before, schema, props, k) == before;
      }
    }
  }

  /** The same, for the element's whole property object. */
  lemma AttributesKeyOrder(schema: Schema, props: Properties)
    requires forall i :: 0 <= i < |Keys(props)| ==> !Effect(schema, props, Keys(props)[i]).Remove?
    ensures Keys(Attributes(schema, props)) == FirstOccurrences(WrittenNames(schema, props, Keys(props)))
  {
    KeyOrderWithoutRemovals(schema, props, Keys(props));
  }
}
