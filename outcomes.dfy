/** Option and Result values for the operations whose Python originals
    either return nothing, return a value, or raise. */
module Outcomes {

  datatype Option<+T> = None | Some(value: T)

  datatype Result<+T, +E> = Ok(value: T) | Err(error: E)

  /** The Python exceptions that the data-preparation code can raise on
      malformed input, with the offending key, line or path. */
  datatype PyError =
    | IndexError(context: string)   // a list index past the end (`parts[2]`, `parts[-2]`)
    | KeyError(key: string)         // a dictionary lookup of an absent key
    | ValueError(context: string)   // unpacking a list of the wrong length
    | FileNotFound(path: string)    // opening a transcription file that is not there
    | MissingKaldiLabel(id: string) // a sentence without a kaldi label (see the README)

  /** Runs a sequence of steps that may each raise, left to right: the list
      of their values, or the first error raised. */
  function Collect<T>(rs: seq<Result<T, PyError>>): Result<seq<T>, PyError>
    decreases |rs|
  {
    if rs == [] then Ok([])
    else
      match Collect(rs[..|rs| - 1])
      case Err(e) => Err(e)
      case Ok(vs) =>
        match rs[|rs| - 1]
        case Err(e) => Err(e)
        case Ok(v) => Ok(vs + [v])
  }

  /** A successful run has one value per step, the value of that step. */
  lemma {:induction false} CollectOk<T>(rs: seq<Result<T, PyError>>)
    requires Collect(rs).Ok?
    ensures |Collect(rs).value| == |rs|
    ensures forall i :: 0 <= i < |rs| ==> rs[i] == Ok(Collect(rs).value[i])
    decreases |rs|
  {
    if rs != [] {
      var init := rs[..|rs| - 1];
      CollectOk(init);
      forall i | 0 <= i < |rs| ensures rs[i] == Ok(Collect(rs).value[i]) {
        if i < |init| { assert rs[i] == init[i]; }
      }
    }
  }

  /** A run fails exactly when one of its steps raises. */
  lemma {:induction false} CollectErr<T>(rs: seq<Result<T, PyError>>)
    ensures Collect(rs).Err? <==> exists i :: 0 <= i < |rs| && rs[i].Err?
    decreases |rs|
  {
    if rs != [] {
      var init := rs[..|rs| - 1];
      CollectErr(init);
      if exists i :: 0 <= i < |init| && init[i].Err? {
        var i :| 0 <= i < |init| && init[i].Err?;
        assert rs[i] == init[i];
      }
      if exists i :: 0 <= i < |rs| && rs[i].Err? {
        var i :| 0 <= i < |rs| && rs[i].Err?;
        if i < |init| { assert init[i] == rs[i]; }
      }
    }
  }

  /** The error of a failed run is the error one of its steps raised. */
  lemma {:induction false} CollectErrFrom<T>(rs: seq<Result<T, PyError>>)
    requires Collect(rs).Err?
    ensures exists i :: 0 <= i < |rs| && rs[i] == Err(Collect(rs).error)
    decreases |rs|
  {
    var init := rs[..|rs| - 1];
    if Collect(init).Err? {
      CollectErrFrom(init);
      var i :| 0 <= i < |init| && init[i] == Err(Collect(init).error);
      assert rs[i] == init[i];
    } else {
      assert rs[|rs| - 1] == Err(Collect(rs).error);
    }
  }

  /** Once a prefix of the steps fails, the whole run fails with the same
      error. */
  lemma {:induction false} CollectErrSticks<T>(rs: seq<Result<T, PyError>>, n: nat)
    requires n <= |rs| && Collect(rs[..n]).Err?
    ensures Collect(rs) == Collect(rs[..n])
    decreases |rs| - n
  {
    if n < |rs| {
      assert rs[..n + 1][..n] == rs[..n];
      CollectErrSticks(rs, n + 1);
    } else {
      assert rs[..n] == rs;
    }
  }

  /** One more successful step extends a successful run by its value. */
  lemma CollectStep<T>(rs: seq<Result<T, PyError>>, n: nat, vs: seq<T>, v: T)
    requires n < |rs| && Collect(rs[..n]) == Ok(vs) && rs[n] == Ok(v)
    ensures Collect(rs[..n + 1]) == Ok(vs + [v])
  {
    assert rs[..n + 1][..n] == rs[..n];
  }

  /** The first step that raises decides the outcome of the whole run. */
  lemma CollectFirstErr<T>(rs: seq<Result<T, PyError>>, n: nat)
    requires n < |rs| && Collect(rs[..n]).Ok? && rs[n].Err?
    ensures Collect(rs) == Err(rs[n].error)
  {
    assert rs[..n + 1][..n] == rs[..n];
    CollectErrSticks(rs, n + 1);
  }
}
