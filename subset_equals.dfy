/** The integration tests' structural subset comparison: `larger` contains
    `smaller` when every dict key of `smaller` is present in `larger` with a
    containing value, every list item of `smaller` is matched by some item of
    `larger` (order ignored), and primitives are equal. */
module SubsetEquals {

  /** A JSON-like Python value. `Opaque(id)` is any other object, `id` standing
      for its identity. */
  datatype Value =
    | NoneValue
    | Bool(b: bool)
    | Int(i: int)
    | Str(s: string)
    | List(items: seq<Value>)
    | Dict(entries: map<string, Value>)
    | Opaque(id: nat)

  /** `_primitive_equals`: both of one primitive type, and equal. */
  predicate PrimitiveEquals(larger: Value, smaller: Value) {
    match (larger, smaller)
    case (Int(a), Int(b)) => a == b
    case (Str(a), Str(b)) => a == b
    case (Bool(a), Bool(b)) => a == b
    case _ => false
  }

  /** `_subset_equals` completes without raising. The identity test
      `larger is smaller` is modelled by equality of values. */
  predicate SubsetEq(larger: Value, smaller: Value)
    decreases smaller, 1
  {
    if larger == smaller then true
    else if larger.List? && smaller.List? then ListSubsetEq(larger.items, smaller.items)
    else if larger.Dict? && smaller.Dict? then DictSubsetEq(larger, smaller)
    else PrimitiveEquals(larger, smaller)
  }

  /** `_dict_subset_equals`: every key of `smaller` is in `larger`, with a
      value that contains `smaller`'s. */
  predicate DictSubsetEq(larger: Value, smaller: Value)
    requires larger.Dict? && smaller.Dict?
    decreases smaller, 0
  {
    forall k :: k in smaller.entries ==>
      k in larger.entries && SubsetEq(larger.entries[k], smaller.entries[k])
  }

  /** `_list_subset_equals`: each item of `smaller` is contained in some item
      of `larger`; the search per item is the `found_match` loop. */
  predicate ListSubsetEq(larger: seq<Value>, smaller: seq<Value>)
    decreases smaller, 0
  {
    forall i :: 0 <= i < |smaller| ==> FoundMatch(larger, smaller[i])
  }

  /** The `found_match` search: some item of `larger` contains `item`. */
  predicate FoundMatch(larger: seq<Value>, item: Value)
    decreases item, 2
  {
    exists j :: 0 <= j < |larger| && SubsetEq(larger[j], item)
  }

  /** Failure of the public entry point, carrying the path it reports. */
  datatype Failure = SubsetEqualsException(message: string, path: string)

  datatype Outcome = Pass | Fail(failure: Failure)

  /** `subset_equals`: fails, at "root_object", exactly when `_subset_equals` fails. */
  function CheckSubsetEquals(larger: Value, smaller: Value): (r: Outcome)
    ensures r.Pass? <==> SubsetEq(larger, smaller)
    ensures r.Fail? ==> r.failure.path == "root_object"
  {
    if SubsetEq(larger, smaller) then Pass
    else Fail(SubsetEqualsException("Couldn't find a subset", "root_object"))
  }

  /** Identical objects always pass. */
  lemma SubsetEqReflexive(v: Value)
    ensures SubsetEq(v, v)
  {
  }

  /** Containment is transitive. */
  lemma {:induction false} SubsetEqTransitive(a: Value, b: Value, c: Value)
    requires SubsetEq(a, b) && SubsetEq(b, c)
    ensures SubsetEq(a, c)
    decreases c
  {
    if a == b || b == c || a == c {
    } else if c.List? {
      assert b.List? && ListSubsetEq(b.items, c.items);
      assert a.List? && ListSubsetEq(a.items, b.items);
      forall i | 0 <= i < |c.items|
        ensures exists k :: 0 <= k < |a.items| && SubsetEq(a.items[k], c.items[i])
      {
        var j :| 0 <= j < |b.items| && SubsetEq(b.items[j], c.items[i]);
        var k :| 0 <= k < |a.items| && SubsetEq(a.items[k], b.items[j]);
        SubsetEqTransitive(a.items[k], b.items[j], c.items[i]);
      }
      assert ListSubsetEq(a.items, c.items);
    } else if c.Dict? {
      assert b.Dict? && DictSubsetEq(b, c);
      assert a.Dict? && DictSubsetEq(a, b);
      forall k | k in c.entries
        ensures k in a.entries && SubsetEq(a.entries[k], c.entries[k])
      {
        SubsetEqTransitive(a.entries[k], b.entries[k], c.entries[k]);
      }
      assert DictSubsetEq(a, c);
    }
  }

  /** The two values have the same runtime type, as `isinstance` tells them
      apart. */
  predicate SameKind(a: Value, b: Value) {
    && a.NoneValue? == b.NoneValue? && a.Bool? == b.Bool? && a.Int? == b.Int?
    && a.Str? == b.Str? && a.List? == b.List? && a.Dict? == b.Dict? && a.Opaque? == b.Opaque?
  }

  /** A dict contains another iff every key of the smaller one is present with
      a containing value; extra keys in `larger` are allowed. */
  lemma DictCharacterization(larger: map<string, Value>, smaller: map<string, Value>)
    ensures SubsetEq(Dict(larger), Dict(smaller)) <==>
      forall k :: k in smaller ==> k in larger && SubsetEq(larger[k], smaller[k])
  {
  }

  /** A list contains another iff every item of the smaller one is contained in
      some item of the larger one, in any order. */
  lemma ListCharacterization(larger: seq<Value>, smaller: seq<Value>)
    ensures SubsetEq(List(larger), List(smaller)) <==>
      forall i :: 0 <= i < |smaller| ==> FoundMatch(larger, smaller[i])
  {
    if larger == smaller {
      forall i | 0 <= i < |smaller|
        ensures FoundMatch(larger, smaller[i])
      {
        assert SubsetEq(larger[i], smaller[i]);
      }
    }
  }

  /** An empty list or dict is contained in any list or dict respectively. */
  lemma EmptySmallerPasses(larger: Value)
    ensures larger.List? ==> SubsetEq(larger, List([]))
    ensures larger.Dict? ==> SubsetEq(larger, Dict(map[]))
  {
  }

  /** Primitives of one shared type pass iff they are equal. */
  lemma PrimitivesPassIffEqual(larger: Value, smaller: Value)
    requires larger.Bool? || larger.Int? || larger.Str?
    requires SameKind(larger, smaller)
    ensures SubsetEq(larger, smaller) <==> larger == smaller
  {
  }

  /** Values of different runtime types never pass in this model: list
      against dict, container against primitive, and any pair of distinct
      primitive types. Python itself passes `True` against `1` and `False`
      against `0`, since `bool` is a subclass of `int`; the model rejects them. */
  lemma KindMismatchFails(larger: Value, smaller: Value)
    requires !SameKind(larger, smaller)
    ensures !SubsetEq(larger, smaller)
  {
  }

  /** Objects the comparison does not know pass only when identical. */
  lemma UnsupportedPassOnlyIfIdentical(larger: Value, smaller: Value)
    requires larger.NoneValue? || larger.Opaque?
    ensures SubsetEq(larger, smaller) <==> larger == smaller
  {
  }

  /** Extra keys in `larger` never make a passing dict comparison fail. */
  lemma {:induction false} ExtraKeyKeepsPass(larger: map<string, Value>, smaller: map<string, Value>, k: string, v: Value)
    requires SubsetEq(Dict(larger), Dict(smaller))
    requires k !in larger
    ensures SubsetEq(Dict(larger[k := v]), Dict(smaller))
  {
    DictCharacterization(larger, smaller);
    assert k !in smaller;
    DictCharacterization(larger[k := v], smaller);
  }

  /** A match found in a list is still found once items are appended. */
  lemma FoundMatchAppend(larger: seq<Value>, extra: seq<Value>, item: Value)
    requires FoundMatch(larger, item)
    ensures FoundMatch(larger + extra, item)
  {
    var j :| 0 <= j < |larger| && SubsetEq(larger[j], item);
    assert (larger + extra)[j] == larger[j];
  }

  /** Extra items in `larger` never make a passing list comparison fail. */
  lemma {:induction false} ExtraItemsKeepPass(larger: seq<Value>, smaller: seq<Value>, extra: seq<Value>)
    requires SubsetEq(List(larger), List(smaller))
    ensures SubsetEq(List(larger + extra), List(smaller))
  {
    ListCharacterization(larger, smaller);
    forall i | 0 <= i < |smaller|
      ensures FoundMatch(larger + extra, smaller[i])
    {
      FoundMatchAppend(larger, extra, smaller[i]);
    }
    ListCharacterization(larger + extra, smaller);
  }

  /** The documented example `[1, 2] ⊇ [2]`. */
  lemma DocumentedExample()
    ensures SubsetEq(List([Int(1), Int(2)]), List([Int(2)]))
  {
    var larger := [Int(1), Int(2)];
    assert SubsetEq(larger[1], Int(2));
    assert ListSubsetEq(larger, [Int(2)]);
  }

  /** The documented example does not hold the other way round: `1` has no
      match in `[2]`. */
  lemma DocumentedExampleReversed()
    ensures !SubsetEq(List([Int(2)]), List([Int(1), Int(2)]))
  {
    var smaller := [Int(1), Int(2)];
    assert !SubsetEq(Int(2), smaller[0]);
    assert !ListSubsetEq([Int(2)], smaller);
  }

  /** Several items of `smaller` may match one item of `larger`, so `[1]`
      contains `[1, 1]`. */
  lemma SharedMatchExample()
    ensures SubsetEq(List([Int(1)]), List([Int(1), Int(1)]))
  {
    assert [Int(1)][0] == Int(1);
  }
}
