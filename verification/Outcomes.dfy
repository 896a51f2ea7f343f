/** How a compile ends early.  The source calls error() or lets a Python
    exception escape; both end the process, so one failure value that `:-`
    propagates stands for them. */
module Outcomes {

  datatype Abort =
    | ImageFull        // an index past the end of code_image
    | BadByte          // a value that does not fit the bytes it is stored in
    | Duplicate        // set_label() on a label that already has an address
    | Rejected         // every error() raised by the statement and expression routines

  datatype Outcome = Pass | Fail(error: Abort) {
    predicate IsFailure() {
      Fail?
    }

    function PropagateFailure(): Outcome
      requires Fail?
    {
      this
    }
  }

  datatype Option<+T> = None | Some(value: T)
}
