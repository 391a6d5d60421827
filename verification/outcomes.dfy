/**
 How a GPU check ends. The scripts either return normally (a compatible GPU)
 or raise an exception; each exception is one tag of `Verdict`.
 */
module Outcomes {

  /** A value that may be missing. */
  datatype Option<+T> = None | Some(value: T)

  /** A value or the reason there is none. */
  datatype Result<+T, +E> = Success(value: T) | Failure(error: E)

  /** The end of a check, over a device name type `N`:
      - Compatible: the success message was produced;
      - NoGpu: the "configure Colab to request a GPU" / "NO GPU DETECTED" error;
      - K80Allocated: the dedicated K80 error;
      - Unknown(name): the "you've achieved wizardry" error naming the device;
      - UndefinedName(ident): a NameError on the Python identifier `ident`. */
  datatype Verdict<N> =
    | Compatible
    | NoGpu
    | K80Allocated
    | Unknown(name: N)
    | UndefinedName(ident: string)
  {
    /** True when the check raised instead of returning. */
    predicate Raised() {
      !Compatible?
    }
  }
}
