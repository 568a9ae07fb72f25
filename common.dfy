/** Small shared vocabulary: optional values, the Python exceptions the modelled
    code can raise, and a failure-compatible result type. */
module Common {

  datatype Option<T> = None | Some(value: T)

  /** The exceptions a Python evaluation of the modelled code can end in. */
  datatype PyError =
    | KeyError(key: string)  // `d[key]` on a dict without that key
    | TypeError              // subscripting, slicing, iterating or `in` on a value of the wrong type
    | ValueError             // `int(s)` on a string that is not a decimal integer
    | Unmodelled             // `str(x)` of a JSON array or object (see README, "Left out")

  /** Either the value a Python expression evaluates to, or the exception it raises.
      Usable with `:-`, so the first exception propagates as in Python. */
  datatype Result<T> = Ok(value: T) | Err(error: PyError) {
    predicate IsFailure() {
      Err?
    }

    function PropagateFailure<U>(): Result<U>
      requires Err?
    {
      Err(error)
    }

    function Extract(): T
      requires Ok?
    {
      value
    }
  }

  /** `p` occurs in `s` starting at index `k`. */
  predicate OccursAt(p: string, s: string, k: nat)
  {
    k + |p| <= |s| && s[k..k + |p|] == p
  }

  /** Python's `p in s` for two strings. */
  predicate IsSubstring(p: string, s: string)
  {
    exists k: nat | k <= |s| :: OccursAt(p, s, k)
  }

  /** Evaluates `f` on each element in order, stopping at the first exception:
      a Python list comprehension or an appending `for` loop whose body may raise. */
  function Collect<A, B>(xs: seq<A>, f: A -> Result<B>): Result<seq<B>>
  {
    if xs == [] then Ok([])
    else
      var y :- f(xs[0]);
      var ys :- Collect(xs[1..], f);
      Ok([y] + ys)
  }

  /** Collect succeeds exactly when every element succeeds, and then it keeps
      length and order. */
  lemma {:induction false} CollectOk<A, B>(xs: seq<A>, f: A -> Result<B>)
    ensures Collect(xs, f).Ok? <==> forall j :: 0 <= j < |xs| ==> f(xs[j]).Ok?
    ensures Collect(xs, f).Ok? ==>
              |Collect(xs, f).value| == |xs| &&
              forall j :: 0 <= j < |xs| ==> Collect(xs, f).value[j] == f(xs[j]).value
  {
    if xs != [] {
      CollectOk(xs[1..], f);
      assert forall j :: 1 <= j < |xs| ==> xs[j] == xs[1..][j - 1];
    }
  }

  /** When Collect fails, it fails with the exception of the first failing element. */
  lemma {:induction false} CollectFirstError<A, B>(xs: seq<A>, f: A -> Result<B>)
    requires Collect(xs, f).Err?
    ensures exists k :: 0 <= k < |xs| && f(xs[k]).Err? && Collect(xs, f).error == f(xs[k]).error &&
                        forall j :: 0 <= j < k ==> f(xs[j]).Ok?
  {
    if f(xs[0]).Ok? {
      CollectFirstError(xs[1..], f);
      var k :| 0 <= k < |xs[1..]| && f(xs[1..][k]).Err? && Collect(xs[1..], f).error == f(xs[1..][k]).error &&
                forall j :: 0 <= j < k ==> f(xs[1..][j]).Ok?;
      assert forall j :: 1 <= j < k + 1 ==> xs[j] == xs[1..][j - 1];
      assert f(xs[k + 1]).Err?;
    } else {
      assert f(xs[0]).Err?;
    }
  }

  /** Appending one more element: what the loop of an imperative caller relies on. */
  lemma {:induction false} CollectSnoc<A, B>(xs: seq<A>, x: A, f: A -> Result<B>)
    requires Collect(xs, f).Ok?
    ensures Collect(xs + [x], f) ==
              if f(x).Ok? then Ok(Collect(xs, f).value + [f(x).value]) else Err(f(x).error)
  {
    if xs == [] {
      assert xs + [x] == [x];
      assert [x][1..] == [];
      assert Collect(xs, f).value == [];
      if f(x).Ok? {
        assert Collect([x], f) == Ok([f(x).value] + []);
        assert Collect(xs, f).value + [f(x).value] == [f(x).value] + [];
      }
    } else {
      assert (xs + [x])[0] == xs[0];
      assert (xs + [x])[1..] == xs[1..] + [x];
      assert f(xs[0]).Ok? && Collect(xs[1..], f).Ok?;
      CollectSnoc(xs[1..], x, f);
      var y, ys := f(xs[0]).value, Collect(xs[1..], f).value;
      assert Collect(xs, f).value == [y] + ys;
      if f(x).Ok? {
        assert Collect(xs + [x], f) == Ok([y] + (ys + [f(x).value]));
        assert [y] + (ys + [f(x).value]) == ([y] + ys) + [f(x).value];
      }
    }
  }

  /** One iteration of a loop that appends `f(xs[i])` to what the first i
      elements gave: on success the prefix grows by one element, on failure the
      whole evaluation ends in that element's exception. */
  lemma CollectStep<A, B>(xs: seq<A>, i: nat, f: A -> Result<B>, acc: seq<B>)
    requires i < |xs| && Collect(xs[..i], f) == Ok(acc)
    ensures f(xs[i]).Ok? ==> Collect(xs[..i + 1], f) == Ok(acc + [f(xs[i]).value])
    ensures f(xs[i]).Err? ==> Collect(xs, f) == Err(f(xs[i]).error)
  {
    var x := xs[i];
    var prefix := xs[..i + 1];
    assert prefix == xs[..i] + [x];
    CollectSnoc(xs[..i], x, f);
    if f(x).Err? {
      assert Collect(prefix, f) == Err(f(x).error);
      CollectAppendErr(prefix, xs[i + 1..], f);
      assert prefix + xs[i + 1..] == xs;
    }
  }

  /** Once a prefix fails, nothing after it is evaluated. */
  lemma {:induction false} CollectAppendErr<A, B>(xs: seq<A>, ys: seq<A>, f: A -> Result<B>)
    requires Collect(xs, f).Err?
    ensures Collect(xs + ys, f) == Collect(xs, f)
  {
    assert (xs + ys)[0] == xs[0];
    if f(xs[0]).Ok? {
      assert (xs + ys)[1..] == xs[1..] + ys;
      CollectAppendErr(xs[1..], ys, f);
    }
  }
}
