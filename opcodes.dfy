/** The closed operator tables of the instruction set: arithmetic operators
    (BinOpInstruction), bitwise operators (BitwiseBinaryInstruction) and
    comparison predicates (CompareTypes). Tags are plain integers, so a tag
    outside a table is representable and is only rejected when rendered. */
module Opcodes {
  import opened Wrappers
  import opened Errors
  import Text

  const OP_ADD := 0
  const OP_SUB := 1
  const OP_MUL := 2
  const OP_DIV := 3

  const SHL := 0
  const LSHR := 1
  const ASHR := 2
  const AND := 3
  const OR := 4
  const XOR := 5

  const EQ := 1
  const NE := 2
  const UGT := 3
  const UGE := 4
  const ULT := 5
  const ULE := 6
  const SGT := 7
  const SGE := 8
  const SLT := 9
  const SLE := 10

  const BinOpMessage := "BinOp instruction expects, OP_ADD, OP_SUB, OP_MUL, OP_DIV"

  function BitwiseMessage(op: int): string
  {
    "Invalid Bitwise Binary operator: " + Text.IntToString(op) + " encountered"
  }

  /** The mnemonic BinOpInstruction renders for `op`, or the exception it
      raises for a tag outside the table. */
  function BinOpMnemonic(op: int): (r: Result<string, Error>)
    ensures r.Success? <==> OP_ADD <= op <= OP_DIV
    ensures r.Failure? ==> r.error == InvalidType(BinOpMessage)
  {
    if op == OP_ADD then Success("add")
    else if op == OP_SUB then Success("sub")
    else if op == OP_MUL then Success("mul")
    else if op == OP_DIV then Success("div")
    else Failure(InvalidType(BinOpMessage))
  }

  /** Reads a rendered arithmetic mnemonic back into its tag. */
  function BinOpFromMnemonic(s: string): Option<int>
  {
    if s == "add" then Some(OP_ADD)
    else if s == "sub" then Some(OP_SUB)
    else if s == "mul" then Some(OP_MUL)
    else if s == "div" then Some(OP_DIV)
    else None
  }

  /** The arithmetic table is a bijection between the four tags and their
      mnemonics. */
  lemma BinOpMnemonicRoundTrip(op: int, s: string)
    ensures BinOpMnemonic(op) == Success(s) <==> BinOpFromMnemonic(s) == Some(op)
  {
  }

  /** The mnemonic BitwiseBinaryInstruction renders for `op`, or the
      exception it raises for a tag outside the table. */
  function BitwiseMnemonic(op: int): (r: Result<string, Error>)
    ensures r.Success? <==> SHL <= op <= XOR
    ensures r.Failure? ==> r.error == InvalidType(BitwiseMessage(op))
  {
    if op == SHL then Success("shl")
    else if op == LSHR then Success("lshr")
    else if op == ASHR then Success("ashr")
    else if op == AND then Success("and")
    else if op == OR then Success("or")
    else if op == XOR then Success("xor")
    else Failure(InvalidType(BitwiseMessage(op)))
  }

  function BitwiseFromMnemonic(s: string): Option<int>
  {
    if s == "shl" then Some(SHL)
    else if s == "lshr" then Some(LSHR)
    else if s == "ashr" then Some(ASHR)
    else if s == "and" then Some(AND)
    else if s == "or" then Some(OR)
    else if s == "xor" then Some(XOR)
    else None
  }

  lemma BitwiseMnemonicRoundTrip(op: int, s: string)
    ensures BitwiseMnemonic(op) == Success(s) <==> BitwiseFromMnemonic(s) == Some(op)
  {
  }

  /** CompareTypes.get_str: the predicate mnemonic for a comparison tag,
      None for any other value. */
  function CompareStr(cond: int): (r: Option<string>)
    ensures r.Some? <==> EQ <= cond <= SLE
  {
    if cond == EQ then Some("eq")
    else if cond == NE then Some("ne")
    else if cond == UGT then Some("ugt")
    else if cond == UGE then Some("uge")
    else if cond == ULT then Some("ult")
    else if cond == ULE then Some("ule")
    else if cond == SGT then Some("sgt")
    else if cond == SGE then Some("sge")
    else if cond == SLT then Some("slt")
    else if cond == SLE then Some("sle")
    else None
  }

  function CompareFromStr(s: string): Option<int>
  {
    if s == "eq" then Some(EQ)
    else if s == "ne" then Some(NE)
    else if s == "ugt" then Some(UGT)
    else if s == "uge" then Some(UGE)
    else if s == "ult" then Some(ULT)
    else if s == "ule" then Some(ULE)
    else if s == "sgt" then Some(SGT)
    else if s == "sge" then Some(SGE)
    else if s == "slt" then Some(SLT)
    else if s == "sle" then Some(SLE)
    else None
  }

  /** The ten comparison tags and their mnemonics are in one-to-one
      correspondence. */
  lemma CompareStrRoundTrip(cond: int, s: string)
    ensures CompareStr(cond) == Some(s) <==> CompareFromStr(s) == Some(cond)
  {
  }
}
