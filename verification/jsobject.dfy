/** Plain JavaScript objects as ordered key/value lists, and `normalizeObj`, which copies an
    object with every key lower-cased (normalizeObj.js). */
module JsObject {
  import opened Wrappers
  import opened Js

  /** An object's own enumerable properties in `Object.keys` order. */
  type Obj<V> = seq<(string, V)>

  function Keys<V>(o: Obj<V>): (r: seq<string>)
    ensures |r| == |o| && forall i :: 0 <= i < |o| ==> r[i] == o[i].0
  {
    if |o| == 0 then [] else [o[0].0] + Keys(o[1..])
  }

  predicate DistinctKeys<V>(o: Obj<V>)
  {
    forall i, j :: 0 <= i < j < |o| ==> o[i].0 != o[j].0
  }

  /** `o[k]`. */
  function Get<V>(o: Obj<V>, k: string): (r: Option<V>)
    ensures r.None? <==> k !in Keys(o)
  {
    if |o| == 0 then None
    else if o[0].0 == k then Some(o[0].1)
    else Get(o[1..], k)
  }

  /** `o[k] = v`: an existing key keeps its position, a new key is appended. */
  function Put<V>(o: Obj<V>, k: string, v: V): Obj<V>
  {
    if |o| == 0 then [(k, v)]
    else if o[0].0 == k then [(k, v)] + o[1..]
    else [o[0]] + Put(o[1..], k, v)
  }

  /** After `o[k] = v`, `k` reads `v` and every other key reads as before. */
  lemma {:induction false} PutGet<V>(o: Obj<V>, k: string, v: V)
    ensures Get(Put(o, k, v), k) == Some(v)
    ensures forall k' :: k' != k ==> Get(Put(o, k, v), k') == Get(o, k')
    decreases |o|
  {
    if |o| > 0 && o[0].0 != k {
      PutGet(o[1..], k, v);
      assert ([o[0]] + Put(o[1..], k, v))[1..] == Put(o[1..], k, v);
    } else if |o| > 0 {
      assert ([(k, v)] + o[1..])[1..] == o[1..];
    }
  }

  /** The key list grows, by `k` at the end, only when `k` was new. */
  lemma {:induction false} PutKeys<V>(o: Obj<V>, k: string, v: V)
    ensures k in Keys(o) ==> Keys(Put(o, k, v)) == Keys(o)
    ensures k !in Keys(o) ==> Put(o, k, v) == o + [(k, v)]
    decreases |o|
  {
    if |o| > 0 && o[0].0 != k {
      PutKeys(o[1..], k, v);
      assert Keys(o)[1..] == Keys(o[1..]);
      if k !in Keys(o) {
        assert [o[0]] + (o[1..] + [(k, v)]) == o + [(k, v)];
      } else {
        var t := Put(o[1..], k, v);
        assert Keys([o[0]] + t)[1..] == Keys(t);
      }
    } else if |o| > 0 {
      assert Keys([(k, v)] + o[1..])[1..] == Keys(o[1..]);
      assert Keys(o)[1..] == Keys(o[1..]);
    }
  }

  lemma {:induction false} PutDistinct<V>(o: Obj<V>, k: string, v: V)
    requires DistinctKeys(o)
    ensures DistinctKeys(Put(o, k, v))
  {
    PutKeys(o, k, v);
    var p := Put(o, k, v);
    if k in Keys(o) {
      forall i, j | 0 <= i < j < |p| ensures p[i].0 != p[j].0 {
        assert p[i].0 == Keys(p)[i] == Keys(o)[i] == o[i].0;
        assert p[j].0 == Keys(p)[j] == Keys(o)[j] == o[j].0;
      }
    } else {
      forall i, j | 0 <= i < j < |p| ensures p[i].0 != p[j].0 {
        assert p[i] == o[i];
        assert Keys(o)[i] == o[i].0;
      }
    }
  }

  lemma PutFacts<V>(o: Obj<V>, k: string, v: V)
    ensures Get(Put(o, k, v), k) == Some(v)
    ensures forall k' :: k' != k ==> Get(Put(o, k, v), k') == Get(o, k')
    ensures k in Keys(o) ==> Keys(Put(o, k, v)) == Keys(o)
    ensures k !in Keys(o) ==> Put(o, k, v) == o + [(k, v)]
    ensures DistinctKeys(o) ==> DistinctKeys(Put(o, k, v))
  {
    PutGet(o, k, v);
    PutKeys(o, k, v);
    if DistinctKeys(o) {
      PutDistinct(o, k, v);
    }
  }

  /** `normalizeObj(o)`: a fresh object receiving `o`'s values in key order under lower-cased
      keys, so a later key overwrites an earlier one that lower-cases the same. */
  function Normalize<V>(o: Obj<V>): Obj<V>
  {
    if |o| == 0 then []
    else Put(Normalize(o[..|o| - 1]), ToLower(o[|o| - 1].0), o[|o| - 1].1)
  }

  /** The lower-cased keys of `o`, in order. */
  function LowerKeys<V>(o: Obj<V>): (r: seq<string>)
    ensures |r| == |o| && forall i :: 0 <= i < |o| ==> r[i] == ToLower(o[i].0)
  {
    if |o| == 0 then [] else LowerKeys(o[..|o| - 1]) + [ToLower(o[|o| - 1].0)]
  }

  /** Reference reading of a normalised property: the value of the last key of `o` that
      lower-cases to `k`. */
  function LastValue<V>(o: Obj<V>, k: string): Option<V>
  {
    if |o| == 0 then None
    else if ToLower(o[|o| - 1].0) == k then Some(o[|o| - 1].1)
    else LastValue(o[..|o| - 1], k)
  }

  /** Reading `k` from the normalised object yields the value of the last key that lower-cases
      to `k`: values are copied unchanged and a later colliding key wins. */
  lemma {:induction false} NormalizeGet<V>(o: Obj<V>, k: string)
    ensures Get(Normalize(o), k) == LastValue(o, k)
    decreases |o|
  {
    if |o| > 0 {
      NormalizeGet(o[..|o| - 1], k);
      PutFacts(Normalize(o[..|o| - 1]), ToLower(o[|o| - 1].0), o[|o| - 1].1);
    }
  }

  /** The keys of the normalised object are exactly the lower-cased keys of the input. */
  lemma {:induction false} NormalizeKeySet<V>(o: Obj<V>)
    ensures forall k :: k in Keys(Normalize(o)) <==> k in LowerKeys(o)
    decreases |o|
  {
    if |o| > 0 {
      var o' := o[..|o| - 1];
      NormalizeKeySet(o');
      var n' := Normalize(o');
      var last := ToLower(o[|o| - 1].0);
      PutKeys(n', last, o[|o| - 1].1);
      assert Normalize(o) == Put(n', last, o[|o| - 1].1);
      assert LowerKeys(o) == LowerKeys(o') + [last];
      assert forall k :: k in LowerKeys(o) <==> k in LowerKeys(o') || k == last;
      if last !in Keys(n') {
        assert Keys(Normalize(o)) == Keys(n') + [last];
      } else {
        assert Keys(Normalize(o)) == Keys(n');
      }
    }
  }

  lemma {:induction false} NormalizeDistinct<V>(o: Obj<V>)
    ensures DistinctKeys(Normalize(o))
    decreases |o|
  {
    if |o| > 0 {
      NormalizeDistinct(o[..|o| - 1]);
      PutFacts(Normalize(o[..|o| - 1]), ToLower(o[|o| - 1].0), o[|o| - 1].1);
    }
  }

  /** The keys of the normalised object are distinct, lower case, and exactly the lower-cased
      keys of the input. */
  lemma {:induction false} NormalizeKeys<V>(o: Obj<V>)
    ensures DistinctKeys(Normalize(o))
    ensures forall k :: k in Keys(Normalize(o)) <==> k in LowerKeys(o)
    ensures forall i :: 0 <= i < |Normalize(o)| ==> IsLowerCase(Normalize(o)[i].0)
  {
    NormalizeDistinct(o);
    NormalizeKeySet(o);
    var n := Normalize(o);
    forall i | 0 <= i < |n| ensures IsLowerCase(n[i].0) {
      assert Keys(n)[i] == n[i].0;
      assert n[i].0 in Keys(n);
      assert n[i].0 in LowerKeys(o);
      var j :| 0 <= j < |o| && LowerKeys(o)[j] == n[i].0;
      ToLowerProperties(o[j].0);
    }
  }

  /** An object whose keys are already distinct and lower case is its own normal form. */
  lemma {:induction false} NormalizeNormal<V>(o: Obj<V>)
    requires DistinctKeys(o)
    requires forall i :: 0 <= i < |o| ==> IsLowerCase(o[i].0)
    ensures Normalize(o) == o
    decreases |o|
  {
    if |o| > 0 {
      var o' := o[..|o| - 1];
      NormalizeNormal(o');
      var (k, v) := o[|o| - 1];
      ToLowerProperties(k);
      assert k !in Keys(o') by {
        forall i | 0 <= i < |o'| ensures Keys(o')[i] != k {
          assert o'[i] == o[i];
        }
      }
      PutFacts(o', k, v);
      assert o' + [(k, v)] == o;
    }
  }

  /** `normalizeObj` is idempotent. */
  lemma NormalizeIdempotent<V>(o: Obj<V>)
    ensures Normalize(Normalize(o)) == Normalize(o)
  {
    NormalizeKeys(o);
    NormalizeNormal(Normalize(o));
  }
}
