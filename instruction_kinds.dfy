/** The constructors of the instruction subclasses: what each one passes to
    Instruction.__init__ (operand list, `needs_name`), what it keeps as its
    own payload, and the control-flow edges the branches add. */
module InstructionKinds {
  import opened Wrappers
  import opened Errors
  import opened IR
  import Opcodes

  /** CallInstruction(func, arg_list): the callee then the arguments. */
  method NewCall(callee: Operand, args: seq<Operand>, parent: BasicBlock?, name: Option<string>) returns (i: Instruction)
    modifies OperandInsts([callee] + args)`uses
    ensures fresh(i) && Built(i, Call(callee, args), [callee] + args, parent, name) && i.needsName
    ensures UsesRegistered(i, [callee] + args)
  {
    i := new Instruction(Call(callee, args), [callee] + args, parent, name, true);
  }

  method NewTerminate(parent: BasicBlock?, name: Option<string>) returns (i: Instruction)
    ensures fresh(i) && Built(i, Terminate, [], parent, name) && i.needsName
  {
    i := new Instruction(Terminate, [], parent, name, true);
  }

  /** ReturnInstruction(value): a single operand, None when there is no
      value; a return is never named. */
  method NewReturn(value: Operand, parent: BasicBlock?, name: Option<string>) returns (i: Instruction)
    modifies OperandInsts([value])`uses
    ensures fresh(i) && Built(i, Return, [value], parent, name) && !i.needsName
    ensures UsesRegistered(i, [value])
  {
    i := new Instruction(Return, [value], parent, name, false);
  }

  method NewSelect(cond: Operand, ifTrue: Operand, ifFalse: Operand, parent: BasicBlock?, name: Option<string>)
    returns (i: Instruction)
    requires OperandRanked(cond) && OperandRanked(ifTrue) && OperandRanked(ifFalse)
    modifies OperandInsts([cond, ifTrue, ifFalse])`uses
    ensures fresh(i) && Built(i, Select(cond, ifTrue, ifFalse), [cond, ifTrue, ifFalse], parent, name) && i.needsName
    ensures UsesRegistered(i, [cond, ifTrue, ifFalse])
  {
    i := new Instruction(Select(cond, ifTrue, ifFalse), [cond, ifTrue, ifFalse], parent, name, true);
  }

  /** LoadInstruction(alloca): no operands; it asserts that it loads from
      an alloca once the instruction is built. */
  method NewLoad(alloca: Instruction, parent: BasicBlock?, name: Option<string>) returns (r: Result<Instruction, Error>)
    ensures r.Failure? <==> !alloca.kind.Alloca?
    ensures r.Failure? ==> r.error == AssertionError
    ensures r.Success? ==> fresh(r.value) && Built(r.value, Load(alloca), [], parent, name) && r.value.needsName
  {
    var i := new Instruction(Load(alloca), [], parent, name, true);
    if !alloca.kind.Alloca? {
      return Failure(AssertionError);
    }
    r := Success(i);
  }

  /** StoreInstruction(alloca, value): no operands and never named. */
  method NewStore(alloca: Instruction, value: Operand, parent: BasicBlock?) returns (r: Result<Instruction, Error>)
    requires OperandRanked(value)
    ensures r.Failure? <==> !alloca.kind.Alloca?
    ensures r.Failure? ==> r.error == AssertionError
    ensures r.Success? ==> fresh(r.value) && Built(r.value, Store(alloca, value), [], parent, None) && !r.value.needsName
  {
    var i := new Instruction(Store(alloca, value), [], parent, None, false);
    if !alloca.kind.Alloca? {
      return Failure(AssertionError);
    }
    r := Success(i);
  }

  /** BinOpInstruction(binop, lhs, rhs): the operator is checked only when
      the instruction is rendered. */
  method NewBinOp(op: int, lhs: Operand, rhs: Operand, parent: BasicBlock?, name: Option<string>) returns (i: Instruction)
    modifies OperandInsts([lhs, rhs])`uses
    ensures fresh(i) && Built(i, BinOp(op), [lhs, rhs], parent, name) && i.needsName
    ensures UsesRegistered(i, [lhs, rhs])
  {
    i := new Instruction(BinOp(op), [lhs, rhs], parent, name, true);
  }

  method NewAdd(lhs: Operand, rhs: Operand, parent: BasicBlock?, name: Option<string>) returns (i: Instruction)
    modifies OperandInsts([lhs, rhs])`uses
    ensures fresh(i) && Built(i, BinOp(Opcodes.OP_ADD), [lhs, rhs], parent, name)
    ensures UsesRegistered(i, [lhs, rhs])
  {
    i := NewBinOp(Opcodes.OP_ADD, lhs, rhs, parent, name);
  }

  method NewSub(lhs: Operand, rhs: Operand, parent: BasicBlock?, name: Option<string>) returns (i: Instruction)
    modifies OperandInsts([lhs, rhs])`uses
    ensures fresh(i) && Built(i, BinOp(Opcodes.OP_SUB), [lhs, rhs], parent, name)
    ensures UsesRegistered(i, [lhs, rhs])
  {
    i := NewBinOp(Opcodes.OP_SUB, lhs, rhs, parent, name);
  }

  method NewMul(lhs: Operand, rhs: Operand, parent: BasicBlock?, name: Option<string>) returns (i: Instruction)
    modifies OperandInsts([lhs, rhs])`uses
    ensures fresh(i) && Built(i, BinOp(Opcodes.OP_MUL), [lhs, rhs], parent, name)
    ensures UsesRegistered(i, [lhs, rhs])
  {
    i := NewBinOp(Opcodes.OP_MUL, lhs, rhs, parent, name);
  }

  method NewDiv(lhs: Operand, rhs: Operand, parent: BasicBlock?, name: Option<string>) returns (i: Instruction)
    modifies OperandInsts([lhs, rhs])`uses
    ensures fresh(i) && Built(i, BinOp(Opcodes.OP_DIV), [lhs, rhs], parent, name)
    ensures UsesRegistered(i, [lhs, rhs])
  {
    i := NewBinOp(Opcodes.OP_DIV, lhs, rhs, parent, name);
  }

  /** AllocaInstruction(num_elms): a missing count means one element. */
  method NewAlloca(numElms: Option<int>, parent: BasicBlock?, name: Option<string>) returns (i: Instruction)
    ensures fresh(i) && Built(i, Alloca(if numElms.None? then 1 else numElms.value), [], parent, name) && i.needsName
  {
    var count := if numElms.None? then 1 else numElms.value;
    i := new Instruction(Alloca(count), [], parent, name, true);
  }

  method NewPhi(parent: BasicBlock?, name: Option<string>) returns (i: Instruction)
    ensures fresh(i) && Built(i, Phi, [], parent, name) && i.needsName
  {
    i := new Instruction(Phi, [], parent, name, true);
  }

  /** BranchInstruction(bb): the target block is the one operand; inside a
      block, the branch adds the edge from that block to the target. */
  method NewBranch(bb: BasicBlock, parent: BasicBlock?, name: Option<string>, ghost scope: set<BasicBlock>)
    returns (i: Instruction)
    modifies if parent == null then {} else {parent, bb}
    ensures fresh(i) && Built(i, Branch(bb), [BlockRef(bb)], parent, name) && !i.needsName
    ensures parent != null ==> EdgeAdded(parent, bb, scope)
  {
    i := new Instruction(Branch(bb), [BlockRef(bb)], parent, name, false);
    if parent != null {
      Connect(parent, bb, scope);
    }
  }

  /** IndirectBranchInstruction(bb): built as a branch. */
  method NewIndirectBranch(bb: BasicBlock, parent: BasicBlock?, name: Option<string>, ghost scope: set<BasicBlock>)
    returns (i: Instruction)
    modifies if parent == null then {} else {parent, bb}
    ensures fresh(i) && Built(i, IndirectBranch(bb), [BlockRef(bb)], parent, name) && !i.needsName
    ensures parent != null ==> EdgeAdded(parent, bb, scope)
  {
    i := new Instruction(IndirectBranch(bb), [BlockRef(bb)], parent, name, false);
    if parent != null {
      Connect(parent, bb, scope);
    }
  }

  /** ConditionalBranchInstruction(cmp_inst, value, bb_true, bb_false): the
      operands are the comparison and both targets, not the value; inside a
      block it adds an edge to each target. */
  method NewCondBranch(cmp: Operand, value: Operand, bbTrue: BasicBlock, bbFalse: BasicBlock,
                       parent: BasicBlock?, name: Option<string>, ghost scope: set<BasicBlock>)
    returns (i: Instruction)
    requires OperandRanked(value)
    modifies OperandInsts([cmp, BlockRef(bbTrue), BlockRef(bbFalse)])`uses
    modifies if parent == null then {} else {parent, bbTrue, bbFalse}
    ensures fresh(i)
    ensures Built(i, CondBranch(cmp, value, bbTrue, bbFalse), [cmp, BlockRef(bbTrue), BlockRef(bbFalse)], parent, name)
    ensures !i.needsName && UsesRegistered(i, [cmp, BlockRef(bbTrue), BlockRef(bbFalse)])
    ensures parent != null ==> EdgesAdded(parent, bbTrue, bbFalse, scope)
  {
    var ops := [cmp, BlockRef(bbTrue), BlockRef(bbFalse)];
    i := new Instruction(CondBranch(cmp, value, bbTrue, bbFalse), ops, parent, name, false);
    if parent != null {
      ConnectBoth(parent, bbTrue, bbFalse, scope);
    }
  }

  /** Both edges of a conditional branch have been added, nothing else
      about the three blocks' edges changed, and the symmetry of the edges
      inside `scope` is kept. */
  twostate predicate EdgesAdded(from: BasicBlock, onTrue: BasicBlock, onFalse: BasicBlock, scope: set<BasicBlock>)
    reads from, onTrue, onFalse, scope
  {
    && from.successors == old(from.successors) + {onTrue, onFalse}
    && onTrue.predecessors == old(onTrue.predecessors) + {from}
    && onFalse.predecessors == old(onFalse.predecessors) + {from}
    && (from != onTrue && from != onFalse ==> from.predecessors == old(from.predecessors))
    && (onTrue != from ==> onTrue.successors == old(onTrue.successors))
    && (onFalse != from ==> onFalse.successors == old(onFalse.successors))
    && (from in scope && onTrue in scope && onFalse in scope && old(EdgesSymmetric(scope)) ==> EdgesSymmetric(scope))
  }

  method ConnectBoth(from: BasicBlock, onTrue: BasicBlock, onFalse: BasicBlock, ghost scope: set<BasicBlock>)
    modifies from`successors, onTrue`predecessors, onFalse`predecessors
    ensures EdgesAdded(from, onTrue, onFalse, scope)
  {
    // The source adds both successor edges before both predecessor
    // edges; the two kinds of edge live in different fields, so adding
    // them pairwise ends in the same state.
    Connect(from, onTrue, scope);
    Connect(from, onFalse, scope);
  }

  /** The edge `from` -> `to` has been added on both sides, nothing else
      about the two blocks' edges changed, and the symmetry of the edges
      inside `scope` is kept. */
  twostate predicate EdgeAdded(from: BasicBlock, to: BasicBlock, scope: set<BasicBlock>)
    reads from, to, scope
  {
    && from.successors == old(from.successors) + {to}
    && to.predecessors == old(to.predecessors) + {from}
    && (from != to ==> from.predecessors == old(from.predecessors) && to.successors == old(to.successors))
    && (from in scope && to in scope && old(EdgesSymmetric(scope)) ==> EdgesSymmetric(scope))
  }

  /** `parent.add_successor(bb)` then `bb.add_predecessor(parent)`. */
  method Connect(from: BasicBlock, to: BasicBlock, ghost scope: set<BasicBlock>)
    modifies from`successors, to`predecessors
    ensures EdgeAdded(from, to, scope)
  {
    from.AddSuccessor(to);
    to.AddPredecessor(from);
  }

  method NewSwitch(parent: BasicBlock?, name: Option<string>) returns (i: Instruction)
    ensures fresh(i) && Built(i, Switch, [], parent, name) && i.needsName
  {
    i := new Instruction(Switch, [], parent, name, true);
  }

  /** CompareInstruction(cond, op1, op2) and its two subclasses: both
      compared values are operands; the condition is checked only when the
      instruction is rendered. */
  method NewCompare(cond: int, lhs: Operand, rhs: Operand, parent: BasicBlock?, name: Option<string>) returns (i: Instruction)
    modifies OperandInsts([lhs, rhs])`uses
    ensures fresh(i) && Built(i, Compare(cond, lhs, rhs), [lhs, rhs], parent, name) && i.needsName
    ensures UsesRegistered(i, [lhs, rhs])
  {
    i := new Instruction(Compare(cond, lhs, rhs), [lhs, rhs], parent, name, true);
  }

  method NewICmp(cond: int, lhs: Operand, rhs: Operand, parent: BasicBlock?, name: Option<string>) returns (i: Instruction)
    modifies OperandInsts([lhs, rhs])`uses
    ensures fresh(i) && Built(i, ICmp(cond, lhs, rhs), [lhs, rhs], parent, name) && i.needsName
    ensures UsesRegistered(i, [lhs, rhs])
  {
    i := new Instruction(ICmp(cond, lhs, rhs), [lhs, rhs], parent, name, true);
  }

  method NewFCmp(cond: int, lhs: Operand, rhs: Operand, parent: BasicBlock?, name: Option<string>) returns (i: Instruction)
    requires OperandRanked(lhs) && OperandRanked(rhs)
    modifies OperandInsts([lhs, rhs])`uses
    ensures fresh(i) && Built(i, FCmp(cond, lhs, rhs), [lhs, rhs], parent, name) && i.needsName
    ensures UsesRegistered(i, [lhs, rhs])
  {
    i := new Instruction(FCmp(cond, lhs, rhs), [lhs, rhs], parent, name, true);
  }

  method NewCast(parent: BasicBlock?, name: Option<string>) returns (i: Instruction)
    ensures fresh(i) && Built(i, Cast, [], parent, name) && i.needsName
  {
    i := new Instruction(Cast, [], parent, name, true);
  }

  method NewGep(parent: BasicBlock?, name: Option<string>) returns (i: Instruction)
    ensures fresh(i) && Built(i, Gep, [], parent, name) && i.needsName
  {
    i := new Instruction(Gep, [], parent, name, true);
  }

  /** ExtractElementInstruction(vec, idx): both are kept, neither is an
      operand. */
  method NewExtractElement(vec: Operand, index: Operand, parent: BasicBlock?, name: Option<string>) returns (i: Instruction)
    ensures fresh(i) && Built(i, ExtractElement(vec, index), [], parent, name) && i.needsName
  {
    i := new Instruction(ExtractElement(vec, index), [], parent, name, true);
  }

  method NewInsertElement(parent: BasicBlock?, name: Option<string>) returns (i: Instruction)
    ensures fresh(i) && Built(i, InsertElement, [], parent, name) && i.needsName
  {
    i := new Instruction(InsertElement, [], parent, name, true);
  }

  /** BitwiseBinaryInstruction(op, op1, op2): the operator is checked only
      when the instruction is rendered. */
  method NewBitwise(op: int, lhs: Operand, rhs: Operand, parent: BasicBlock?, name: Option<string>) returns (i: Instruction)
    requires OperandRanked(lhs) && OperandRanked(rhs)
    modifies OperandInsts([lhs, rhs])`uses
    ensures fresh(i) && Built(i, Bitwise(op, lhs, rhs), [lhs, rhs], parent, name) && i.needsName
    ensures UsesRegistered(i, [lhs, rhs])
  {
    i := new Instruction(Bitwise(op, lhs, rhs), [lhs, rhs], parent, name, true);
  }

  method NewShiftLeft(lhs: Operand, rhs: Operand, parent: BasicBlock?, name: Option<string>) returns (i: Instruction)
    requires OperandRanked(lhs) && OperandRanked(rhs)
    modifies OperandInsts([lhs, rhs])`uses
    ensures fresh(i) && Built(i, Bitwise(Opcodes.SHL, lhs, rhs), [lhs, rhs], parent, name)
    ensures UsesRegistered(i, [lhs, rhs])
  {
    i := NewBitwise(Opcodes.SHL, lhs, rhs, parent, name);
  }

  method NewLogicalShiftRight(lhs: Operand, rhs: Operand, parent: BasicBlock?, name: Option<string>) returns (i: Instruction)
    requires OperandRanked(lhs) && OperandRanked(rhs)
    modifies OperandInsts([lhs, rhs])`uses
    ensures fresh(i) && Built(i, Bitwise(Opcodes.LSHR, lhs, rhs), [lhs, rhs], parent, name)
    ensures UsesRegistered(i, [lhs, rhs])
  {
    i := NewBitwise(Opcodes.LSHR, lhs, rhs, parent, name);
  }

  method NewArithmeticShiftRight(lhs: Operand, rhs: Operand, parent: BasicBlock?, name: Option<string>) returns (i: Instruction)
    requires OperandRanked(lhs) && OperandRanked(rhs)
    modifies OperandInsts([lhs, rhs])`uses
    ensures fresh(i) && Built(i, Bitwise(Opcodes.ASHR, lhs, rhs), [lhs, rhs], parent, name)
    ensures UsesRegistered(i, [lhs, rhs])
  {
    i := NewBitwise(Opcodes.ASHR, lhs, rhs, parent, name);
  }

  method NewAnd(lhs: Operand, rhs: Operand, parent: BasicBlock?, name: Option<string>) returns (i: Instruction)
    requires OperandRanked(lhs) && OperandRanked(rhs)
    modifies OperandInsts([lhs, rhs])`uses
    ensures fresh(i) && Built(i, Bitwise(Opcodes.AND, lhs, rhs), [lhs, rhs], parent, name)
    ensures UsesRegistered(i, [lhs, rhs])
  {
    i := NewBitwise(Opcodes.AND, lhs, rhs, parent, name);
  }

  method NewOr(lhs: Operand, rhs: Operand, parent: BasicBlock?, name: Option<string>) returns (i: Instruction)
    requires OperandRanked(lhs) && OperandRanked(rhs)
    modifies OperandInsts([lhs, rhs])`uses
    ensures fresh(i) && Built(i, Bitwise(Opcodes.OR, lhs, rhs), [lhs, rhs], parent, name)
    ensures UsesRegistered(i, [lhs, rhs])
  {
    i := NewBitwise(Opcodes.OR, lhs, rhs, parent, name);
  }

  method NewXor(lhs: Operand, rhs: Operand, parent: BasicBlock?, name: Option<string>) returns (i: Instruction)
    requires OperandRanked(lhs) && OperandRanked(rhs)
    modifies OperandInsts([lhs, rhs])`uses
    ensures fresh(i) && Built(i, Bitwise(Opcodes.XOR, lhs, rhs), [lhs, rhs], parent, name)
    ensures UsesRegistered(i, [lhs, rhs])
  {
    i := NewBitwise(Opcodes.XOR, lhs, rhs, parent, name);
  }
}
