/** Failure-compatible wrappers used throughout the model. */
module Wrappers {

  /** An optional value: `None` stands for JavaScript's `undefined`. */
  datatype Option<+T> = None | Some(value: T)

  /** A value or an error. */
  datatype Result<+T, +E> = Ok(value: T) | Err(error: E)

  /** The values carried by the `Some` entries of `xs`, in order. */
  function Somes<T>(xs: seq<Option<T>>): (r: seq<T>)
    ensures |r| <= |xs|
  {
    if |xs| == 0 then []
    else Somes(xs[..|xs| - 1]) + (if xs[|xs| - 1].Some? then [xs[|xs| - 1].value] else [])
  }

  /** `Somes` distributes over concatenation, so it keeps the relative order of its input. */
  lemma {:induction false} SomesAppend<T>(xs: seq<Option<T>>, ys: seq<Option<T>>)
    ensures Somes(xs + ys) == Somes(xs) + Somes(ys)
    decreases |ys|
  {
    if |ys| == 0 {
      assert xs + ys == xs;
    } else {
      var ys' := ys[..|ys| - 1];
      assert (xs + ys)[..|xs + ys| - 1] == xs + ys';
      SomesAppend(xs, ys');
    }
  }

  /** A value appears among the `Somes` exactly when some entry carries it. */
  lemma {:induction false} SomesMembership<T>(xs: seq<Option<T>>, v: T)
    ensures v in Somes(xs) <==> exists i :: 0 <= i < |xs| && xs[i] == Some(v)
    decreases |xs|
  {
    if |xs| > 0 {
      var xs' := xs[..|xs| - 1];
      SomesMembership(xs', v);
      if v in Somes(xs) && v !in Somes(xs') {
        assert xs[|xs| - 1] == Some(v);
      }
      if exists i :: 0 <= i < |xs| && xs[i] == Some(v) {
        var i :| 0 <= i < |xs| && xs[i] == Some(v);
        if i < |xs| - 1 {
          assert xs'[i] == Some(v);
        }
      }
    }
  }

  /** With no `Some` entry there is nothing to keep. */
  lemma {:induction false} SomesAllNone<T>(xs: seq<Option<T>>)
    requires forall i :: 0 <= i < |xs| ==> xs[i].None?
    ensures Somes(xs) == []
    decreases |xs|
  {
    if |xs| > 0 {
      SomesAllNone(xs[..|xs| - 1]);
    }
  }
}
