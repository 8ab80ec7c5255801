/** Concrete programs built with the IR core, each with what it leads to. */
module Scenarios {
  import opened Wrappers
  import opened Errors
  import opened Naming
  import opened IR
  import opened InstructionKinds
  import Opcodes
  import PyList
  import Text

  /** An alloca read twice by an addition, both in one block. Erasing the
      alloca with the intended guard is refused; with the guard as written
      it goes through, and the addition is left reading an instruction that
      is no longer in the block. */
  method EraseUsedAlloca(renderList: seq<Operand> -> string)
    returns (x: Instruction, u: Instruction, block: BasicBlock, refused: Outcome<Error>, erased: Outcome<Error>)
    ensures refused == Fail(UsesRemain(UsesRemainMessage))
    ensures erased == Pass
    ensures block.instructions.items == [u] && x !in block.instructions.items
    ensures InstRef(x) in u.operands && x.uses == [u, u]
  {
    x, u, block := AllocaUsedTwice();
    refused := RefusedErase(x, u, renderList);
    erased := ErasedAsWritten(x, u, renderList);
    PyList.SweepSingle([x, u], x);
    assert PyList.FirstIndex([x, u], x) == 0;
  }

  /** The intended guard sees the addition still reading the alloca; the
      alloca and its user all render, so the refusal itself is raised. */
  method RefusedErase(x: Instruction, u: Instruction, renderList: seq<Operand> -> string) returns (r: Outcome<Error>)
    requires x != u && x.parent != null && Ranked(x) && Ranked(u)
    requires x.kind == Alloca(1) && u.kind == BinOp(Opcodes.OP_ADD)
    requires u.operands == [InstRef(x), InstRef(x)] && x.uses == [u, u]
    modifies x.parent.instructions
    ensures r == Fail(UsesRemain(UsesRemainMessage))
    ensures x.parent.instructions.items == old(x.parent.instructions.items)
  {
    AllocaAndUserRender(x, u, renderList);
    r := x.EraseFromParent(renderList);
    AllocaAndUserRender(x, u, renderList);
    assert [x] + [u, u, u, u] == [x, u, u, u, u];
  }

  lemma AllocaAndUserRender(x: Instruction, u: Instruction, renderList: seq<Operand> -> string)
    requires Ranked(x) && Ranked(u)
    requires x.kind == Alloca(1) && u.kind == BinOp(Opcodes.OP_ADD)
    requires u.operands == [InstRef(x), InstRef(x)] && x.uses == [u, u]
    ensures x.HasLiveUser()
    ensures Remaining(x, x.uses, false) == [u, u, u, u]
    ensures RefusalError([x, u, u, u, u], renderList) == UsesRemain(UsesRemainMessage)
  {
    assert InstRef(x) in x.uses[0].operands;
    RemainingOfDoubleUse(x, u);
    AllocaRendering(x, renderList);
    BinOpRendering(u, renderList);
    var reported := [x, u, u, u, u];
    assert forall k :: 0 <= k < |reported| ==> Str(reported[k], renderList).Success?;
  }

  /** Two recorded uses by one user that reads `x` twice: four entries. */
  lemma RemainingOfDoubleUse(x: Instruction, u: Instruction)
    requires u.operands == [InstRef(x), InstRef(x)] && x.uses == [u, u]
    ensures Remaining(x, x.uses, false) == [u, u, u, u]
  {
    var hits := Hits(u, InstRef(x), u.operands);
    assert multiset(u.operands)[InstRef(x)] == 2;
    assert hits == [u, u] by {
      assert |hits| == 2 && hits[0] in hits && hits[1] in hits;
    }
    assert [u, u][..1] == [u];
    assert Remaining(x, [u], false) == [u, u];
  }

  /** The guard as written looks for a user that reads itself, finds none,
      and sweeps the alloca out of its block. */
  method ErasedAsWritten(x: Instruction, u: Instruction, renderList: seq<Operand> -> string) returns (r: Outcome<Error>)
    requires x != u && x.parent != null && Ranked(x) && Ranked(u)
    requires u.operands == [InstRef(x), InstRef(x)] && x.uses == [u, u]
    modifies x.parent.instructions
    ensures r == Pass
    ensures x.parent.instructions.items == PyList.Sweep(old(x.parent.instructions.items), 0, x)
  {
    assert !x.UserHoldsItself() by {
      assert InstRef(u) !in u.operands;
    }
    r := x.EraseFromParentAsWritten(renderList);
  }

  /** An alloca, then an addition of the alloca to itself, appended to one
      block. */
  method AllocaUsedTwice() returns (x: Instruction, u: Instruction, block: BasicBlock)
    ensures fresh(block) && fresh(block.instructions)
    ensures x != u && x.parent == block && Ranked(x) && Ranked(u)
    ensures x.kind == Alloca(1) && u.kind == BinOp(Opcodes.OP_ADD)
    ensures u.operands == [InstRef(x), InstRef(x)] && x.uses == [u, u]
    ensures block.instructions.items == [x, u]
  {
    x, block := AllocaInBlock();
    u := AddToItself(x, block);
  }

  /** A block holding one alloca, appended through the block's list. */
  method AllocaInBlock() returns (x: Instruction, block: BasicBlock)
    ensures fresh(block) && fresh(block.instructions) && fresh(block.instructions.generator) && fresh(x)
    ensures x.parent == block && Ranked(x) && x.kind == Alloca(1) && x.uses == []
    ensures block.instructions.items == [x] && block.instructions.generator.Valid()
  {
    var g := new NameGenerator();
    block := new BasicBlock("entry", g);
    x := NewAlloca(None, block, None);
    block.instructions.Append(x);
  }

  /** An addition of `x` to itself, appended to `x`'s block. */
  method AddToItself(x: Instruction, block: BasicBlock) returns (u: Instruction)
    requires x.uses == [] && block.instructions.generator.Valid()
    modifies x`uses, block.instructions, block.instructions.generator
    ensures fresh(u) && Ranked(u) && u.kind == BinOp(Opcodes.OP_ADD) && u.parent == block
    ensures u.operands == [InstRef(x), InstRef(x)] && x.uses == [u, u]
    ensures block.instructions.items == old(block.instructions.items) + [u]
  {
    var ops := [InstRef(x), InstRef(x)];
    assert ops[0].inst == x;
    assert x in OperandInsts(ops);
    assert multiset(ops)[InstRef(x)] == 2;
    u := NewAdd(InstRef(x), InstRef(x), block, None);
    assert x.uses == [] + Copies(u, 2) == [u, u];
    block.instructions.Append(u);
  }

  /** Block A ends in an unconditional branch to block B: the edge is
      recorded on both sides, and A counts as empty although it holds an
      instruction. */
  method BranchBetweenBlocks() returns (a: BasicBlock, b: BasicBlock)
    ensures a.successors == {b} && b.predecessors == {a}
    ensures a.instructions.items != [] && a.IsEmpty() && a.HasTerminator()
    ensures a.Validate(k => IsTerminatorKind(k)).Pass?
  {
    var g := new NameGenerator();
    a := new BasicBlock("A", g);
    b := new BasicBlock("B", g);
    var br := NewBranch(b, a, None, {a, b});
    a.instructions.Append(br);
  }

  /** A bitwise instruction with operator tag 99 is built without
      complaint; asking for its text raises the invalid-operator fault. */
  method InvalidBitwiseOperator(renderList: seq<Operand> -> string) returns (i: Instruction)
    ensures Ranked(i)
    ensures Str(i, renderList) == Failure(InvalidType(Opcodes.BitwiseMessage(99)))
  {
    i := NewBitwise(99, Literal("1"), Literal("2"), null, None);
    BitwiseRendering(i, renderList);
  }

  /** A block `entry` holding an alloca, a store of 5 into it, a load from
      it and a return of the load: it validates, and it renders one line
      per instruction, named with the generated value names. */
  method EntryBlock(renderList: seq<Operand> -> string) returns (entry: BasicBlock, r: Result<string, Error>)
    ensures fresh(entry.instructions)
    ensures entry.Validate(k => IsTerminatorKind(k)).Pass?
    ensures r == Success(Header(entry.name, [])
                         + "    %1 = alloca [1]*\n"
                         + "    store %1, 5\n"
                         + "    %2 = load %1\n"
                         + "    return %2\n")
  {
    var x, st, ld, ret;
    entry, x, st, ld, ret := BuildEntryBlock();
    EntryBody(x, st, ld, ret, renderList);
    r := entry.Render([], renderList);
    assert BlockNames([]) == [];
    var l1, l2, l3, l4 := "    %1 = alloca [1]*\n", "    store %1, 5\n", "    %2 = load %1\n", "    return %2\n";
    var h := Header(entry.name, []);
    assert h + (l1 + l2 + l3 + l4) == h + l1 + l2 + l3 + l4;
  }

  lemma EntryBody(x: Instruction, st: Instruction, ld: Instruction, ret: Instruction, renderList: seq<Operand> -> string)
    requires x.kind == Alloca(1) && x.storedName == Some("1") && Ranked(x)
    requires st.kind == Store(x, Literal("5")) && st.storedName == None && Ranked(st)
    requires ld.kind == Load(x) && ld.storedName == Some("2") && Ranked(ld)
    requires ret.kind == Return && ret.operands == [InstRef(ld)] && ret.storedName == None && Ranked(ret)
    ensures Body([x, st, ld, ret], renderList)
            == Success("    %1 = alloca [1]*\n" + "    store %1, 5\n" + "    %2 = load %1\n" + "    return %2\n")
  {
    AllocaLine(x, renderList);
    StoreLine(st, x, renderList);
    LoadLine(ld, x, renderList);
    ReturnLine(ret, ld, renderList);
    BodyOfFour(x, st, ld, ret, renderList);
  }

  /** Four instructions whose lines all render: the body is the four lines. */
  lemma BodyOfFour(a: Instruction, b: Instruction, c: Instruction, d: Instruction, renderList: seq<Operand> -> string)
    requires Ranked(a) && Ranked(b) && Ranked(c) && Ranked(d)
    requires Line(a, renderList).Success? && Line(b, renderList).Success?
    requires Line(c, renderList).Success? && Line(d, renderList).Success?
    ensures Body([a, b, c, d], renderList) == Success(Line(a, renderList).value + Line(b, renderList).value
                                                     + Line(c, renderList).value + Line(d, renderList).value)
  {
    var la := Line(a, renderList).value;
    assert [a] == [] + [a];
    BodySnoc([], a, renderList);
    assert "" + la == la;
    assert [a, b] == [a] + [b];
    BodySnoc([a], b, renderList);
    assert [a, b, c] == [a, b] + [c];
    BodySnoc([a, b], c, renderList);
    assert [a, b, c, d] == [a, b, c] + [d];
    BodySnoc([a, b, c], d, renderList);
  }

  /** The body of a list grown by one instruction whose line renders. */
  lemma BodySnoc(front: seq<Instruction>, i: Instruction, renderList: seq<Operand> -> string)
    requires forall k :: 0 <= k < |front| ==> Ranked(front[k])
    requires Ranked(i) && Body(front, renderList).Success? && Line(i, renderList).Success?
    ensures Body(front + [i], renderList) == Success(Body(front, renderList).value + Line(i, renderList).value)
  {
    assert (front + [i])[..|front|] == front;
  }

  /** A one-character stored name other than the sigil reads back with
      the sigil in front. */
  lemma NameOfDigit(d: char)
    requires d != '%'
    ensures ReadName(Some([d])) == Success(Some(['%', d]))
  {
    assert [d][0] != '%';
    assert "%" + [d] == ['%', d];
  }

  lemma AllocaLine(x: Instruction, renderList: seq<Operand> -> string)
    requires x.kind == Alloca(1) && x.storedName == Some("1") && Ranked(x)
    ensures Line(x, renderList) == Success("    %1 = alloca [1]*\n")
  {
    NameOfDigit('1');
    assert Text.IntToString(1) == "1";
    assert "alloca [" + "1" + "]*" == "alloca [1]*";
    assert "    " + ("%1" + " = ") + "alloca [1]*" + "\n" == "    %1 = alloca [1]*\n";
  }

  lemma StoreLine(st: Instruction, x: Instruction, renderList: seq<Operand> -> string)
    requires x.storedName == Some("1")
    requires st.kind == Store(x, Literal("5")) && st.storedName == None && Ranked(st)
    ensures Line(st, renderList) == Success("    store %1, 5\n")
  {
    NameOfDigit('1');
    assert x.Name() == Success(Some("%1"));
    assert OperandStr(Literal("5"), renderList) == Success("5");
    assert "store " + "%1" + ", " + "5" == "store %1, 5";
    assert Str(st, renderList) == Success("store %1, 5");
    assert st.Name() == Success(None);
    assert "    " + "" + "store %1, 5" + "\n" == "    store %1, 5\n";
  }

  lemma LoadLine(ld: Instruction, x: Instruction, renderList: seq<Operand> -> string)
    requires x.storedName == Some("1")
    requires ld.kind == Load(x) && ld.storedName == Some("2") && Ranked(ld)
    ensures Line(ld, renderList) == Success("    %2 = load %1\n")
  {
    NameOfDigit('1');
    NameOfDigit('2');
    assert "load " + "%1" == "load %1";
    assert "    " + ("%2" + " = ") + "load %1" + "\n" == "    %2 = load %1\n";
  }

  lemma ReturnLine(ret: Instruction, ld: Instruction, renderList: seq<Operand> -> string)
    requires ld.storedName == Some("2")
    requires ret.kind == Return && ret.operands == [InstRef(ld)] && ret.storedName == None && Ranked(ret)
    ensures Line(ret, renderList) == Success("    return %2\n")
  {
    NameOfDigit('2');
    assert "return " + "%2" == "return %2";
    assert "    " + "" + "return %2" + "\n" == "    return %2\n";
  }

  /** The instructions of `entry`, each appended as it is built. */
  method BuildEntryBlock() returns (entry: BasicBlock, x: Instruction, st: Instruction, ld: Instruction, ret: Instruction)
    ensures fresh(entry.instructions)
    ensures entry.instructions.items == [x, st, ld, ret] && entry.predecessors == {}
    ensures x.kind == Alloca(1) && x.storedName == Some("1") && Ranked(x)
    ensures st.kind == Store(x, Literal("5")) && st.storedName == None && Ranked(st)
    ensures ld.kind == Load(x) && ld.storedName == Some("2") && Ranked(ld)
    ensures ret.kind == Return && ret.operands == [InstRef(ld)] && ret.storedName == None && Ranked(ret)
  {
    entry, x, st := StoreIntoAlloca();
    ld, ret := LoadAndReturn(entry, x);
  }

  /** `entry` with an alloca, named by the generator, and a store into it. */
  method StoreIntoAlloca() returns (entry: BasicBlock, x: Instruction, st: Instruction)
    ensures fresh(entry.instructions) && fresh(entry.instructions.generator)
    ensures entry.instructions.generator.Valid() && entry.instructions.generator.values == ["1"]
    ensures entry.instructions.items == [x, st] && entry.predecessors == {}
    ensures x.kind == Alloca(1) && x.storedName == Some("1") && Ranked(x)
    ensures st.kind == Store(x, Literal("5")) && st.storedName == None && Ranked(st)
  {
    var g := new NameGenerator();
    entry := new BasicBlock("entry", g);
    x := NewAlloca(None, entry, None);
    entry.instructions.Append(x);
    assert entry.instructions.items == [x];
    assert g.values == [x.storedName.value];
    assert g.values[0] == Text.NatToString(1) == "1";

    var store := NewStore(x, Literal("5"), entry);
    st := store.value;
    entry.instructions.Append(st);
  }

  /** Then a load from the alloca, named next, and a return of the load. */
  method LoadAndReturn(entry: BasicBlock, x: Instruction) returns (ld: Instruction, ret: Instruction)
    requires entry.instructions.generator.Valid() && entry.instructions.generator.values == ["1"]
    requires x.kind.Alloca?
    modifies entry.instructions, entry.instructions.generator
    ensures entry.instructions.items == old(entry.instructions.items) + [ld, ret]
    ensures ld.kind == Load(x) && ld.storedName == Some("2") && Ranked(ld)
    ensures ret.kind == Return && ret.operands == [InstRef(ld)] && ret.storedName == None && Ranked(ret)
  {
    var g := entry.instructions.generator;
    var load := NewLoad(x, entry, None);
    ld := load.value;
    entry.instructions.Append(ld);
    assert g.values == ["1", ld.storedName.value];
    assert g.values[1] == Text.NatToString(2) == "2";

    ret := NewReturn(InstRef(ld), entry, None);
    entry.instructions.Append(ret);
  }
}
