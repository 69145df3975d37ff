/**
 * `_merge(a, b)`: the recursive deep merge that lays user options `b` over
 * the defaults `a`. Arrays are leaves that `b` replaces wholesale; two plain
 * objects merge key by key; anywhere else `b` wins unless it is null or
 * undefined.
 */
module ConfigMerge {
  import opened Js

  function Merge(a: Value, b: Value): (r: Value)
    ensures (a.Arr? || b.Arr?) ==> r == Coalesce(b, a)
    ensures Nullish(b) ==> r == a
    ensures a.Obj? && b.Obj? ==>
              r.Obj? && r.fields.Keys == a.fields.Keys + b.fields.Keys &&
              (forall k :: k in a.fields && k !in b.fields ==> r.fields[k] == a.fields[k])
    ensures !a.Obj? && !a.Arr? && !Nullish(b) ==> r == b
    ensures a.Obj? && !b.Obj? && !b.Arr? && !Nullish(b) ==> r == b
    decreases b
  {
    if a.Arr? || b.Arr? then Coalesce(b, a)
    else if a.Obj? && b.Obj? then
      Obj(map k | k in a.fields.Keys + b.fields.Keys ::
            if k in b.fields then (assert b.fields[k] in b.fields.Values; Merge(Prop(a.fields, k), b.fields[k]))
            else a.fields[k])
    else Coalesce(b, a)
  }

  /** Two objects merge key by key: each key of `b` holds the merge of both sides' values under it. */
  lemma MergeKeyWise(a: Value, b: Value, k: string)
    requires a.Obj? && b.Obj? && k in b.fields
    ensures k in Merge(a, b).fields
    ensures Merge(a, b).fields[k] == Merge(Prop(a.fields, k), b.fields[k])
  {
  }

  /**
   * A default two levels down survives: when both sides hold an object under
   * `k` and only the defaults set `j` inside it, the merged `k` keeps the
   * default `j`, while every key the user sets there is merged in.
   */
  lemma NestedDefaultKept(a: Value, b: Value, k: string, j: string)
    requires a.Obj? && b.Obj? && k in a.fields && k in b.fields
    requires a.fields[k].Obj? && b.fields[k].Obj?
    requires j in a.fields[k].fields && j !in b.fields[k].fields
    ensures Merge(a, b).fields[k].Obj?
    ensures j in Merge(a, b).fields[k].fields
    ensures Merge(a, b).fields[k].fields[j] == a.fields[k].fields[j]
    ensures b.fields[k].fields.Keys <= Merge(a, b).fields[k].fields.Keys
  {
    MergeKeyWise(a, b, k);
  }

  /** Merging a configuration with itself changes nothing. */
  lemma {:induction false} MergeIdempotent(a: Value)
    ensures Merge(a, a) == a
    decreases a
  {
    if a.Obj? {
      forall k | k in a.fields
        ensures Merge(Prop(a.fields, k), a.fields[k]) == a.fields[k]
      {
        assert a.fields[k] in a.fields.Values;
        MergeIdempotent(a.fields[k]);
      }
      assert Merge(a, a).fields == a.fields;
    }
  }

  /** Laying the same options over the result a second time changes nothing. */
  lemma {:induction false} MergeReapply(a: Value, b: Value)
    ensures Merge(Merge(a, b), b) == Merge(a, b)
    decreases b
  {
    var r := Merge(a, b);
    if a.Arr? || b.Arr? {
      if !Nullish(b) {
        MergeIdempotent(b);
      } else {
        assert r == a;
      }
    } else if a.Obj? && b.Obj? {
      forall k | k in b.fields
        ensures Merge(Merge(Prop(a.fields, k), b.fields[k]), b.fields[k]) == Merge(Prop(a.fields, k), b.fields[k])
      {
        assert b.fields[k] in b.fields.Values;
        MergeReapply(Prop(a.fields, k), b.fields[k]);
      }
      assert Merge(r, b).fields == r.fields;
    } else if !Nullish(b) {
      MergeIdempotent(b);
    }
  }

  /**
   * A key only the user options have comes out as they give it, except that
   * `null` becomes `undefined` (`null ?? undefined`). Keys are own keys:
   * names the defaults inherit from `Object.prototype` are not modelled.
   */
  lemma UserOnlyKey(a: Value, b: Value, k: string)
    requires a.Obj? && b.Obj? && k in b.fields && k !in a.fields
    ensures k in Merge(a, b).fields
    ensures Merge(a, b).fields[k] == if b.fields[k].Null? then Undefined else b.fields[k]
  {
    assert Prop(a.fields, k) == Undefined;
  }
}
