/** Optional values and the outcome of a Ruby call that may raise. */
module Outcomes {

  /** Ruby's `nil` or a value. */
  datatype Option<+T> = None | Some(value: T)

  /** A call either returns a value or raises an exception of the named class. */
  datatype Outcome<+T> = Returned(value: T) | Raised(error: string)

  const NO_METHOD_ERROR := "NoMethodError"
  const NAME_ERROR := "NameError"
  const ARGUMENT_ERROR := "ArgumentError"
  const SYSTEM_CALL_ERROR := "SystemCallError"

  /** The message carried by an ArgumentError the Contracts library raises for an argument or
      return value that breaks a declared contract; its exact text is not modelled. */
  const CONTRACT_VIOLATION := "Contract violation"

  function OptionToSeq<T>(o: Option<T>): (r: seq<T>)
    ensures |r| <= 1
    ensures o.None? ==> r == []
    ensures o.Some? ==> r == [o.value]
  {
    match o
    case None => []
    case Some(v) => [v]
  }
}
