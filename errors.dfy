/** The exceptions the IR core raises, as values. */
module Errors {

  datatype Error =
    /** InvalidTypeException: an operator tag outside its closed table. */
    | InvalidType(message: string)
    /** NoBBTerminatorException: a block that does not end in a terminator. */
    | NoBBTerminator(message: string)
    /** The plain Exception raised when an instruction with live uses is erased. */
    | UsesRemain(message: string)
    /** NotImplementedError: instruction lists cannot be concatenated. */
    | NotImplemented(message: string)
    /** Raised by the Python runtime: indexing the first character of an
        empty name, or the first operand of an empty operand list. */
    | IndexError
    /** Raised by the Python runtime: `str` of an object whose `__str__`
        returns None, or `+` between a string and None. */
    | TypeError
    /** Raised by the Python runtime: reading `name` or `instructions`
        of an object that has none (a literal, None). */
    | AttributeError
    /** AssertionError: a load or store built over an instruction that is
        not an alloca. */
    | AssertionError

  const UsesRemainMessage := "Uses remain while current instruction is being deleted"
  const ConcatMessage := "__add__ method not implemented for InstructionList"
}
