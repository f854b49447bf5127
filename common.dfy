/** Small value wrappers shared by every module of the model. */
module Common {

  /** A Go pointer or optional value that may be nil. */
  datatype Option<+T> = None | Some(value: T)

  /** A Go `(value, error)` pair: either a value or an error. */
  datatype Result<+T, +E> = Ok(value: T) | Err(error: E)

  /** A Go `[]byte`. */
  type Bytes = seq<bv8>

  /** A Go `error` return on its own: nil or an error. */
  datatype Outcome<+E> = Pass | Fail(error: E)

  /** The first error a check reports over `xs`, in order: a Go loop returning on the first error. */
  function FirstError<T>(xs: seq<T>, check: T -> Option<string>): Option<string> {
    if xs == [] then None
    else if check(xs[0]).Some? then check(xs[0])
    else FirstError(xs[1..], check)
  }

  /**
    Checking in order: once the first `i` elements pass, the first error is
    that of the next element when it fails, and there is none when no
    element is left.
  */
  lemma {:induction false} FirstErrorAt<T>(xs: seq<T>, check: T -> Option<string>, i: nat)
    requires i <= |xs|
    requires forall j :: 0 <= j < i ==> check(xs[j]).None?
    ensures i < |xs| && check(xs[i]).Some? ==> FirstError(xs, check) == check(xs[i])
    ensures i == |xs| ==> FirstError(xs, check).None?
  {
    if i > 0 {
      assert check(xs[0]).None?;
      FirstErrorAt(xs[1..], check, i - 1);
    }
  }

  /**
    The first error is reported exactly when some element fails, and it is
    the error of an element that fails after only elements that pass.
  */
  lemma {:induction false} FirstErrorFacts<T>(xs: seq<T>, check: T -> Option<string>)
    ensures FirstError(xs, check).None? <==> forall x :: x in xs ==> check(x).None?
    ensures FirstError(xs, check).Some? ==>
      exists i :: 0 <= i < |xs| && check(xs[i]) == FirstError(xs, check) &&
        forall j :: 0 <= j < i ==> check(xs[j]).None?
  {
    if xs != [] && check(xs[0]).None? {
      FirstErrorFacts(xs[1..], check);
      assert forall x :: x in xs ==> x == xs[0] || x in xs[1..];
      if FirstError(xs, check).Some? {
        var i :| 0 <= i < |xs[1..]| && check(xs[1..][i]) == FirstError(xs[1..], check) &&
          forall j :: 0 <= j < i ==> check(xs[1..][j]).None?;
        assert check(xs[i + 1]) == FirstError(xs, check);
      }
    } else if xs != [] {
      assert check(xs[0]) == FirstError(xs, check);
    }
  }
}
