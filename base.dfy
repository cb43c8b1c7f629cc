/** Failure-carrying values shared by every module of the model. */
module Base {

  datatype Option<T> = None | Some(value: T)

  /** The Python exceptions the modelled code can raise. */
  datatype Error =
    | KeyError(message: string)  // a required option is missing
    | OverflowError              // int() of an infinite float
    | AssertionError             // a failed `assert`
    | IndexError                 // an index outside a list or array
    | ValueError                 // list.index of an absent element

  datatype Result<T> = Ok(value: T) | Err(error: Error)

  /**
   * Runs a sequence of steps that may fail, in order: the values of all of
   * them, or the error of the first that fails (an exception aborts the rest).
   */
  function Collect<T>(outs: seq<Result<T>>): (r: Result<seq<T>>)
    ensures r.Ok? <==> forall i :: 0 <= i < |outs| ==> outs[i].Ok?
    ensures r.Ok? ==> |r.value| == |outs|
  {
    if |outs| == 0 then Ok([])
    else
      match Collect(outs[..|outs| - 1])
      case Err(e) => Err(e)
      case Ok(rs) =>
        match outs[|outs| - 1]
        case Err(e) => Err(e)
        case Ok(x) => Ok(rs + [x])
  }

  /** A collected run holds, at every position, the value of that step. */
  lemma {:induction false} CollectEntries<T>(outs: seq<Result<T>>)
    requires Collect(outs).Ok?
    ensures forall i :: 0 <= i < |outs| ==> outs[i] == Ok(Collect(outs).value[i])
  {
    if |outs| > 0 {
      var init := outs[..|outs| - 1];
      CollectEntries(init);
      forall i | 0 <= i < |outs|
        ensures outs[i] == Ok(Collect(outs).value[i])
      {
        if i < |outs| - 1 {
          assert outs[i] == init[i];
        }
      }
    }
  }

  /** One more successful step appends its value. */
  lemma CollectStep<T>(outs: seq<Result<T>>, k: nat, rs: seq<T>, x: T)
    requires k < |outs| && Collect(outs[..k]) == Ok(rs) && outs[k] == Ok(x)
    ensures Collect(outs[..k + 1]) == Ok(rs + [x])
  {
    assert outs[..k + 1][..k] == outs[..k];
  }

  /** The first step that fails decides the error of the whole run. */
  lemma {:induction false} CollectFirstFailure<T>(outs: seq<Result<T>>, k: nat, rs: seq<T>, e: Error)
    requires k < |outs| && Collect(outs[..k]) == Ok(rs) && outs[k] == Err(e)
    ensures Collect(outs) == Err(e)
  {
    if |outs| == k + 1 {
      assert outs[..k + 1] == outs;
      assert outs[..|outs| - 1] == outs[..k];
    } else {
      var init := outs[..|outs| - 1];
      assert init[..k] == outs[..k];
      CollectFirstFailure(init, k, rs, e);
    }
  }
}
