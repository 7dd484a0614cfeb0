/** Option and Result, and the all-or-nothing collection of a sequence of
    results that Rust performs with `collect::<Result<Vec<_>, _>>()`. */
module Wrappers {

  datatype Option<+T> = None | Some(value: T)

  datatype Result<+T, +E> = Ok(value: T) | Err(error: E)

  /** Collects `rs` into the sequence of their values, or stops at the first error. */
  function Collect<T, E>(rs: seq<Result<T, E>>): (r: Result<seq<T>, E>)
    ensures r.Ok? ==> |r.value| == |rs|
  {
    if rs == [] then Ok([])
    else if rs[0].Err? then Err(rs[0].error)
    else
      match Collect(rs[1..])
      case Ok(tail) => Ok([rs[0].value] + tail)
      case Err(e) => Err(e)
  }

  /** Every element succeeded. */
  ghost predicate AllOk<T, E>(rs: seq<Result<T, E>>)
  {
    forall i :: 0 <= i < |rs| ==> rs[i].Ok?
  }

  /** Collect succeeds exactly when every element does, and then keeps every value in order. */
  lemma {:induction false} CollectOk<T, E>(rs: seq<Result<T, E>>)
    ensures Collect(rs).Ok? <==> AllOk(rs)
    ensures Collect(rs).Ok? ==>
      |Collect(rs).value| == |rs| &&
      forall i :: 0 <= i < |rs| ==> Collect(rs).value[i] == rs[i].value
  {
    if rs != [] {
      CollectOk(rs[1..]);
      if rs[0].Ok? && Collect(rs[1..]).Ok? {
        var tail := Collect(rs[1..]).value;
        forall i | 0 <= i < |rs| ensures Collect(rs).value[i] == rs[i].value {
          if i > 0 { assert Collect(rs).value[i] == tail[i - 1]; }
        }
      }
      if AllOk(rs) {
        assert AllOk(rs[1..]) by {
          forall i | 0 <= i < |rs[1..]| ensures rs[1..][i].Ok? { assert rs[1..][i] == rs[i + 1]; }
        }
      }
      if !AllOk(rs) && rs[0].Ok? {
        var k :| 0 <= k < |rs| && !rs[k].Ok?;
        assert rs[1..][k - 1] == rs[k];
      }
    }
  }

  /** On failure the error is that of the first failing element. */
  lemma {:induction false} CollectFirstError<T, E>(rs: seq<Result<T, E>>, k: nat)
    requires k < |rs| && rs[k].Err?
    requires forall i :: 0 <= i < k ==> rs[i].Ok?
    ensures Collect(rs) == Err(rs[k].error)
  {
    if k > 0 {
      assert rs[1..][k - 1] == rs[k];
      CollectFirstError(rs[1..], k - 1);
    }
  }
}
