/** What the modelled C# code gets from its runtime: references that may be
    null, and the exceptions it can throw. */
module Runtime {

  /** A value that may be absent; stands for a C# reference that may be null. */
  datatype Option<+T> = None | Some(value: T)

  /** The exceptions the modelled code can raise. */
  datatype Exception = NullReference | IndexOutOfRange

  /** How a call ended: normally, or by throwing (the state it had changed
      before the throw stays changed). */
  datatype Outcome = Completed | Threw(exception: Exception)
}
