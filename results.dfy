/** Outcomes of the colour pipeline's operations: a value, or the exception
    numpy or Python would raise. */
module Results {

  /** The exceptions the modelled code can raise. */
  datatype Error =
    | EmptyArray          // np.convolve on an empty operand (ValueError)
    | ShapeMismatch       // a broadcast or reshape that does not fit (ValueError)
    | ZeroDivision        // 1 / 0 in the kernel constructor (ZeroDivisionError)
    | NegativeDimension   // np.ones with a negative size (ValueError)

  datatype Option<+T> = None | Some(value: T)

  datatype Result<+T> = Ok(value: T) | Err(error: Error)

  /** The outcome of a call that returns nothing but may raise. */
  datatype Outcome = Pass | Fail(error: Error)

  /** Puts `p` in front of a successful gather, keeps a failure as it is. */
  function Prepend<T>(p: seq<T>, r: Result<seq<T>>): Result<seq<T>>
  {
    match r
    case Ok(s) => Ok(p + s)
    case Err(e) => Err(e)
  }

  /** Prepending nothing changes nothing. */
  lemma PrependNothing<T>(r: Result<seq<T>>)
    ensures Prepend([], r) == r
  {
    if r.Ok? {
      assert [] + r.value == r.value;
    }
  }

  lemma PrependAppend<T>(p: seq<T>, x: T, r: Result<seq<T>>)
    ensures Prepend(p, Prepend([x], r)) == Prepend(p + [x], r)
  {
    if r.Ok? {
      assert p + ([x] + r.value) == (p + [x]) + r.value;
    }
  }
}
