/** The failure signal of the contract checks (AssertionFailedException). */
module Failure {
  import opened JavaObjects

  /** A detail message produced by `String.format(template, args)`. The
      formatter itself is not modelled: a message is identified by the
      template and the arguments it was formatted from. */
  datatype Message = Formatted(template: string, args: seq<Option<Object>>)

  /** The result of one check: it returns normally, or it raises an
      AssertionFailedException with a message and an optional cause. */
  datatype Outcome = Ok | Fail(message: Message, cause: Option<Object>)
}
