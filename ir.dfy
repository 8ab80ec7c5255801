/** The mutable IR: instructions with their operands and use lists, the
    instruction list of a block, and basic blocks with their control-flow
    edges, validation and textual form. */
module IR {
  import opened Wrappers
  import opened Errors
  import opened Naming
  import Opcodes
  import Text
  import PyList

  /** What an instruction can name as an operand or carry in its payload. */
  datatype Operand =
    | InstRef(inst: Instruction)
    | BlockRef(block: BasicBlock)
    /** A function argument: its `str` and its `name` are both `argName`. */
    | Arg(argName: string)
    /** A constant such as a Number: rendered as `text`; it has no `name`. */
    | Literal(text: string)
    /** Python's None. */
    | NoValue

  /** The instruction subclasses, each with the private fields its
      constructor stores beside the operand list. */
  datatype Kind =
    | Plain
    | Call(callee: Operand, args: seq<Operand>)
    | Terminate
    | Return
    | Select(condition: Operand, ifTrue: Operand, ifFalse: Operand)
    | Load(alloca: Instruction)
    | Store(alloca: Instruction, value: Operand)
    | BinOp(op: int)
    | Alloca(count: int)
    | Phi
    | Branch(target: BasicBlock)
    | CondBranch(cmp: Operand, value: Operand, trueBlock: BasicBlock, falseBlock: BasicBlock)
    | IndirectBranch(target: BasicBlock)
    | Switch
    | Compare(cond: int, lhs: Operand, rhs: Operand)
    | ICmp(cond: int, lhs: Operand, rhs: Operand)
    | FCmp(cond: int, lhs: Operand, rhs: Operand)
    | Cast
    | Gep
    | ExtractElement(vec: Operand, index: Operand)
    | InsertElement
    | Bitwise(op: int, lhs: Operand, rhs: Operand)

  /** `isinstance(inst, BranchInstruction)`: IndirectBranchInstruction is a
      subclass of BranchInstruction. */
  predicate IsBranchKind(k: Kind)
    ensures k.IndirectBranch? ==> IsBranchKind(k)
    ensures k.CondBranch? ==> !IsBranchKind(k)
  {
    k.Branch? || k.IndirectBranch?
  }

  /** The terminator kinds `get_terminator` accepts. */
  predicate IsTerminatorKind(k: Kind)
    ensures IsBranchKind(k) ==> IsTerminatorKind(k)
    ensures IsTerminatorKind(k) ==> !NeedsName(k)
  {
    k.Return? || IsBranchKind(k) || k.CondBranch?
  }

  /** The `needs_name` flag each subclass passes to Instruction.__init__. */
  predicate NeedsName(k: Kind)
    ensures k.Return? || k.Store? ==> !NeedsName(k)
    ensures k.Call? || k.Load? || k.BinOp? || k.Alloca? || k.Bitwise? || k.ICmp? || k.FCmp? || k.Select? ==> NeedsName(k)
  {
    !(k.Return? || k.Store? || IsBranchKind(k) || k.CondBranch?)
  }

  /** The instructions among `ops`, i.e. those that gain a use. */
  function OperandInsts(ops: seq<Operand>): set<Instruction>
  {
    set k | 0 <= k < |ops| && ops[k].InstRef? :: ops[k].inst
  }

  function Copies<T>(x: T, n: nat): (r: seq<T>)
    ensures |r| == n && forall k :: 0 <= k < n ==> r[k] == x
  {
    if n == 0 then [] else Copies(x, n - 1) + [x]
  }

  function Max(a: nat, b: nat): nat { if a < b then b else a }

  // Rendering an instruction may render the instructions its payload
  // names, to any depth. Every instruction records, in `depth`, one more
  // than the deepest instruction its rendering descends into; payloads are
  // fixed at construction, so this ranking holds forever.

  function OperandDepth(o: Operand): nat { if o.InstRef? then o.inst.depth else 0 }

  function PayloadDepth(k: Kind): nat
  {
    if k.Select? then Max(OperandDepth(k.condition), Max(OperandDepth(k.ifTrue), OperandDepth(k.ifFalse)))
    else if k.Store? || k.CondBranch? then OperandDepth(k.value)
    else if k.FCmp? || k.Bitwise? then Max(OperandDepth(k.lhs), OperandDepth(k.rhs))
    else 0
  }

  predicate Ranked(i: Instruction)
    decreases i.depth, 2
  {
    0 < i.depth && RefsBelow(i.kind, i.depth)
  }

  predicate RefsBelow(k: Kind, bound: nat)
    decreases bound, 1
  {
    && (k.Select? ==> Below(k.condition, bound) && Below(k.ifTrue, bound) && Below(k.ifFalse, bound))
    && (k.Store? || k.CondBranch? ==> Below(k.value, bound))
    && (k.FCmp? || k.Bitwise? ==> Below(k.lhs, bound) && Below(k.rhs, bound))
  }

  predicate Below(o: Operand, bound: nat)
    decreases bound, 0
  {
    o.InstRef? ==> o.inst.depth < bound && Ranked(o.inst)
  }

  /** The payload operands of a ranked instruction are ranked, and lower. */
  lemma RankedPayload(i: Instruction)
    requires Ranked(i)
    ensures i.kind.Select? ==> BelowRanked(i.kind.condition, i.depth) && BelowRanked(i.kind.ifTrue, i.depth) && BelowRanked(i.kind.ifFalse, i.depth)
    ensures i.kind.Store? || i.kind.CondBranch? ==> BelowRanked(i.kind.value, i.depth)
    ensures i.kind.FCmp? || i.kind.Bitwise? ==> BelowRanked(i.kind.lhs, i.depth) && BelowRanked(i.kind.rhs, i.depth)
  {
    var k, d := i.kind, i.depth;
    assert 0 < d && RefsBelow(k, d);
    if k.Select? {
      BelowIsRanked(k.condition, d);
      BelowIsRanked(k.ifTrue, d);
      BelowIsRanked(k.ifFalse, d);
    }
    if k.Store? || k.CondBranch? {
      BelowIsRanked(k.value, d);
    }
    if k.FCmp? || k.Bitwise? {
      BelowIsRanked(k.lhs, d);
      BelowIsRanked(k.rhs, d);
    }
  }

  lemma BelowIsRanked(o: Operand, bound: nat)
    requires 0 < bound && Below(o, bound)
    ensures BelowRanked(o, bound)
  {
  }

  /** A payload of ranked operands is below any bound above its depth. */
  lemma PayloadBelow(k: Kind, bound: nat)
    requires PayloadRanked(k) && PayloadDepth(k) < bound
    ensures RefsBelow(k, bound)
  {
  }

  predicate BelowRanked(o: Operand, bound: nat) { OperandDepth(o) < bound && OperandRanked(o) }

  predicate OperandRanked(o: Operand) { o.InstRef? ==> Ranked(o.inst) }

  /** Every instruction a payload names was itself built by a constructor. */
  predicate PayloadRanked(k: Kind)
  {
    && (k.Select? ==> OperandRanked(k.condition) && OperandRanked(k.ifTrue) && OperandRanked(k.ifFalse))
    && (k.Store? || k.CondBranch? ==> OperandRanked(k.value))
    && (k.FCmp? || k.Bitwise? ==> OperandRanked(k.lhs) && OperandRanked(k.rhs))
  }

  /** Use registration: each instruction among `ops` has gained one trailing
      use by `i` per occurrence in `ops`, and nothing else. */
  twostate predicate UsesRegistered(new i: Instruction, ops: seq<Operand>)
    reads OperandInsts(ops)
  {
    forall x :: x in OperandInsts(ops) ==> x.uses == old(x.uses) + Copies(i, multiset(ops)[InstRef(x)])
  }

  /** The state a subclass constructor leaves its new instruction in. */
  predicate Built(i: Instruction, kind: Kind, ops: seq<Operand>, parent: BasicBlock?, name: Option<string>)
    reads i
  {
    && i.kind == kind && i.needsName == NeedsName(kind) && Ranked(i)
    && i.operands == ops && i.parent == parent && i.storedName == name
    && i.uses == [] && i.instIdx == -1
  }

  class Instruction {
    const kind: Kind
    const needsName: bool
    /** Model-only rank that makes rendering well-founded (see Ranked). */
    const depth: nat
    var operands: seq<Operand>
    var uses: seq<Instruction>
    /** The name as stored; `Name()` reads it back. */
    var storedName: Option<string>
    var parent: BasicBlock?
    var instIdx: int

    /** Instruction.__init__: stores the fields, then registers the new
        instruction as a use of every operand that is an instruction. */
    constructor (kind: Kind, operands: seq<Operand>, parent: BasicBlock?, name: Option<string>, needsName: bool)
      requires PayloadRanked(kind)
      modifies OperandInsts(operands)`uses
      ensures this.kind == kind && this.needsName == needsName && Ranked(this)
      ensures this.operands == operands && this.parent == parent && storedName == name
      ensures uses == [] && instIdx == -1
      ensures UsesRegistered(this, operands)
    {
      this.kind := kind;
      this.needsName := needsName;
      depth := 1 + PayloadDepth(kind);
      this.operands := operands;
      uses := [];
      storedName := name;
      this.parent := parent;
      instIdx := -1;
      new;
      PayloadBelow(kind, depth);
      var k := 0;
      while k < |operands|
        invariant 0 <= k <= |operands|
        invariant this.operands == operands && uses == [] && storedName == name
        invariant this.parent == parent && instIdx == -1
        invariant forall x :: x in OperandInsts(operands) ==>
                    x.uses == old(x.uses) + Copies(this, multiset(operands[..k])[InstRef(x)])
      {
        assert operands[..k + 1] == operands[..k] + [operands[k]];
        if operands[k].InstRef? {
          operands[k].inst.AddUse(this);
        }
        k := k + 1;
      }
      assert operands[..k] == operands;
    }

    /** The `name` getter. */
    function Name(): Result<Option<string>, Error>
      reads this
    {
      ReadName(storedName)
    }

    method AddUse(use: Instruction)
      modifies this`uses
      ensures uses == old(uses) + [use]
    {
      uses := uses + [use];
    }

    /** The guard erase_from_parent evaluates: some recorded user has
        ITSELF among its operands (the comparison is against the user). */
    predicate UserHoldsItself()
      reads this, uses
      ensures UserHoldsItself() <==> |Remaining(this, uses, true)| > 0
    {
      RemainingNonEmpty(this, uses, true);
      exists k :: 0 <= k < |uses| && InstRef(uses[k]) in uses[k].operands
    }

    /** The intended guard: some recorded user still has THIS instruction
        among its operands. */
    predicate HasLiveUser()
      reads this, uses
      ensures HasLiveUser() <==> |Remaining(this, uses, false)| > 0
    {
      RemainingNonEmpty(this, uses, false);
      exists k :: 0 <= k < |uses| && InstRef(this) in uses[k].operands
    }

    /** Every instruction this one's erasure may render is ranked. */
    predicate UsersRanked()
      reads this
    {
      Ranked(this) && forall u :: u in uses ==> Ranked(u)
    }

    /** The `uses_remain` scan: each recorded user, once per operand that
        equals the user itself (`compareWithUser`, as the source compares)
        or this instruction (the intended comparison). */
    method RemainingUses(compareWithUser: bool) returns (remaining: seq<Instruction>)
      ensures remaining == Remaining(this, uses, compareWithUser)
    {
      remaining := [];
      var k := 0;
      while k < |uses|
        invariant 0 <= k <= |uses|
        invariant remaining == Remaining(this, uses[..k], compareWithUser)
      {
        var use := uses[k];
        var target := InstRef(if compareWithUser then use else this);
        var ops := use.operands;
        var m := 0;
        while m < |ops|
          invariant 0 <= m <= |ops|
          invariant remaining == Remaining(this, uses[..k], compareWithUser) + Hits(use, target, ops[..m])
        {
          assert ops[..m + 1][..m] == ops[..m];
          if ops[m] == target {
            remaining := remaining + [use];
          }
          m := m + 1;
        }
        assert ops[..m] == ops;
        assert uses[..k + 1][..k] == uses[..k];
        k := k + 1;
      }
      assert uses[..k] == uses;
    }

    /** The guard erase_from_parent evaluates, with the comparison chosen
        by `compareWithUser`. */
    predicate Guard(compareWithUser: bool)
      reads this, uses
    {
      if compareWithUser then UserHoldsItself() else HasLiveUser()
    }

    /** The check that opens erase_from_parent: collect the remaining uses
        and, when there are some, print this instruction and each of them
        and refuse. The first of those renderings that raises decides the
        error instead. */
    method CheckUses(compareWithUser: bool, renderList: seq<Operand> -> string) returns (r: Outcome<Error>)
      requires UsersRanked()
      ensures !Guard(compareWithUser) ==> r == Pass
      ensures Guard(compareWithUser) ==> r == Fail(RefusalError([this] + Remaining(this, uses, compareWithUser), renderList))
    {
      var remaining := RemainingUses(compareWithUser);
      RemainingNonEmpty(this, uses, compareWithUser);
      if |remaining| == 0 {
        return Pass;
      }
      r := Refuse([this] + remaining, renderList);
    }

    /** Print each of `reported`, then refuse. */
    static method Refuse(reported: seq<Instruction>, renderList: seq<Operand> -> string) returns (r: Outcome<Error>)
      requires forall k :: 0 <= k < |reported| ==> Ranked(reported[k])
      ensures r == Fail(RefusalError(reported, renderList))
    {
      var j := 0;
      while j < |reported|
        invariant 0 <= j <= |reported|
        invariant FirstRenderError(reported, renderList) == FirstRenderError(reported[j..], renderList)
      {
        assert reported[j..][1..] == reported[j + 1..];
        var s := Str(reported[j], renderList);
        if s.Failure? {
          return Fail(s.error);
        }
        j := j + 1;
      }
      r := Fail(UsesRemain(UsesRemainMessage));
    }

    /** erase_from_parent as written: it refuses only when some user holds
        itself, so a user that still holds this instruction does not stop
        the removal. */
    method EraseFromParentAsWritten(renderList: seq<Operand> -> string) returns (r: Outcome<Error>)
      requires UsersRanked()
      modifies if parent == null then {} else {parent.instructions}
      ensures UserHoldsItself() ==> r == Fail(RefusalError([this] + Remaining(this, uses, true), renderList))
      ensures !UserHoldsItself() && parent == null ==> r == Fail(AttributeError)
      ensures r.Pass? <==> !UserHoldsItself() && parent != null
      ensures parent != null && r.Pass? ==>
                parent.instructions.items == PyList.Sweep(old(parent.instructions.items), 0, this)
      ensures parent != null && r.Fail? ==> parent.instructions.items == old(parent.instructions.items)
    {
      r := CheckUses(true, renderList);
      if r.Fail? {
        return;
      }
      if parent == null {
        return Fail(AttributeError);
      }
      parent.instructions.SweepOut(this);
    }

    /** erase_from_parent with the intended guard: it refuses while some
        recorded user still has this instruction as an operand. */
    method EraseFromParent(renderList: seq<Operand> -> string) returns (r: Outcome<Error>)
      requires UsersRanked()
      modifies if parent == null then {} else {parent.instructions}
      ensures HasLiveUser() ==> r == Fail(RefusalError([this] + Remaining(this, uses, false), renderList))
      ensures !HasLiveUser() && parent == null ==> r == Fail(AttributeError)
      ensures r.Pass? <==> !HasLiveUser() && parent != null
      ensures r.Pass? ==> forall u :: u in uses ==> InstRef(this) !in u.operands
      ensures parent != null && r.Pass? ==>
                parent.instructions.items == PyList.Sweep(old(parent.instructions.items), 0, this)
      ensures parent != null && r.Fail? ==> parent.instructions.items == old(parent.instructions.items)
    {
      r := CheckUses(false, renderList);
      if r.Fail? {
        return;
      }
      if parent == null {
        return Fail(AttributeError);
      }
      parent.instructions.SweepOut(this);
    }
  }

  /** One entry `use` per operand in `ops` equal to `target`. */
  function Hits(use: Instruction, target: Operand, ops: seq<Operand>): (r: seq<Instruction>)
    ensures |r| == multiset(ops)[target]
    ensures forall u :: u in r ==> u == use
  {
    if ops == [] then []
    else
      assert ops == ops[..|ops| - 1] + [ops[|ops| - 1]];
      Hits(use, target, ops[..|ops| - 1]) + (if ops[|ops| - 1] == target then [use] else [])
  }

  /** What the `uses_remain` scan collects over `users`, in order. */
  function Remaining(self: Instruction, users: seq<Instruction>, compareWithUser: bool): (r: seq<Instruction>)
    reads set u | u in users
    ensures forall u :: u in r ==> u in users
  {
    if users == [] then []
    else
      var last := users[|users| - 1];
      Remaining(self, users[..|users| - 1], compareWithUser)
        + Hits(last, InstRef(if compareWithUser then last else self), last.operands)
  }

  /** The scan collects something exactly when some user has the compared
      instruction among its operands. */
  lemma {:induction false} RemainingNonEmpty(self: Instruction, users: seq<Instruction>, compareWithUser: bool)
    ensures |Remaining(self, users, compareWithUser)| > 0 <==>
              exists k :: 0 <= k < |users| && InstRef(if compareWithUser then users[k] else self) in users[k].operands
  {
    if users != [] {
      var front := users[..|users| - 1];
      var last := users[|users| - 1];
      RemainingNonEmpty(self, front, compareWithUser);
      var target := InstRef(if compareWithUser then last else self);
      assert |Hits(last, target, last.operands)| > 0 <==> target in last.operands;
      forall k | 0 <= k < |front|
        ensures front[k] == users[k]
      {
      }
    }
  }

  /** The error of the first rendering among `insts` that raises. */
  function FirstRenderError(insts: seq<Instruction>, renderList: seq<Operand> -> string): (r: Option<Error>)
    reads *
    requires forall k :: 0 <= k < |insts| ==> Ranked(insts[k])
    ensures r.None? <==> forall k :: 0 <= k < |insts| ==> Str(insts[k], renderList).Success?
    ensures r.Some? ==> exists k :: 0 <= k < |insts| && Str(insts[k], renderList) == Failure(r.value)
                          && forall j :: 0 <= j < k ==> Str(insts[j], renderList).Success?
    ensures r.Some? ==> RenderError(r.value)
  {
    if insts == [] then None
    else if Str(insts[0], renderList).Failure? then
      StrRaisesRenderError(insts[0], renderList);
      Some(Str(insts[0], renderList).error)
    else
      var rest := FirstRenderError(insts[1..], renderList);
      assert forall k :: 1 <= k < |insts| ==> insts[k] == insts[1..][k - 1];
      rest
  }

  /** The error erase_from_parent raises when it refuses. */
  function RefusalError(reported: seq<Instruction>, renderList: seq<Operand> -> string): (r: Error)
    reads *
    requires forall k :: 0 <= k < |reported| ==> Ranked(reported[k])
    ensures r == UsesRemain(UsesRemainMessage) <==> forall k :: 0 <= k < |reported| ==> Str(reported[k], renderList).Success?
  {
    match FirstRenderError(reported, renderList)
    case None => UsesRemain(UsesRemainMessage)
    case Some(e) => e
  }

  /** The list of instructions of one block; it names each instruction that
      needs a name as it enters the list. */
  class InstructionList {
    var items: seq<Instruction>
    const generator: NameGenerator

    constructor (generator: NameGenerator)
      ensures items == [] && this.generator == generator
    {
      items := [];
      this.generator := generator;
    }

    /** Overwrites the name of `inst` with a fresh one when it needs a name;
        otherwise the generator is not consulted. */
    method NameIfNeeded(inst: Instruction)
      requires generator.Valid()
      modifies inst`storedName, generator
      ensures generator.Valid() && generator.blocks == old(generator.blocks)
      ensures inst.needsName ==>
                && inst.storedName.Some? && inst.storedName.value != ""
                && inst.storedName.value !in old(generator.values)
                && generator.values == old(generator.values) + [inst.storedName.value]
      ensures !inst.needsName ==> inst.storedName == old(inst.storedName) && unchanged(generator)
    {
      if inst.needsName {
        var n := generator.Generate();
        inst.storedName := Some(n);
      }
    }

    /** `append(inst)`. */
    method Append(inst: Instruction)
      requires generator.Valid()
      modifies this, inst`storedName, generator
      ensures items == old(items) + [inst]
      ensures generator.Valid() && generator.blocks == old(generator.blocks)
      ensures inst.needsName ==>
                && inst.storedName.Some? && inst.storedName.value != ""
                && inst.storedName.value !in old(generator.values)
                && generator.values == old(generator.values) + [inst.storedName.value]
      ensures !inst.needsName ==> inst.storedName == old(inst.storedName) && unchanged(generator)
    {
      NameIfNeeded(inst);
      items := items + [inst];
    }

    /** `insert(idx, inst)`, with Python's index clamping. */
    method Insert(idx: int, inst: Instruction)
      requires generator.Valid()
      modifies this, inst`storedName, generator
      ensures items == PyList.Inserted(old(items), idx, inst)
      ensures generator.Valid() && generator.blocks == old(generator.blocks)
      ensures inst.needsName ==>
                && inst.storedName.Some? && inst.storedName.value != ""
                && inst.storedName.value !in old(generator.values)
                && generator.values == old(generator.values) + [inst.storedName.value]
      ensures !inst.needsName ==> inst.storedName == old(inst.storedName) && unchanged(generator)
    {
      NameIfNeeded(inst);
      items := PyList.Inserted(items, idx, inst);
    }

    /** `self + other`: concatenating instruction lists always raises. */
    function Concat(other: InstructionList): (r: Result<seq<Instruction>, Error>)
      ensures r.Failure? && r.error.NotImplemented?
    {
      Failure(NotImplemented(ConcatMessage))
    }

    /** The removal loop of erase_from_parent: iterate over the list and
        `remove` each element that is `x`, while iterating. */
    method SweepOut(x: Instruction)
      modifies this
      ensures items == PyList.Sweep(old(items), 0, x)
    {
      var i := 0;
      while i < |items|
        invariant PyList.Sweep(items, i, x) == PyList.Sweep(old(items), 0, x)
        decreases |items| - i
      {
        if items[i] == x {
          items := PyList.RemoveFirst(items, x);
        }
        i := i + 1;
      }
    }
  }

  /** Every successor edge inside `scope` has its predecessor edge, and
      conversely. */
  ghost predicate EdgesSymmetric(scope: set<BasicBlock>)
    reads scope
  {
    forall a, b :: a in scope && b in scope ==> (b in a.successors <==> a in b.predecessors)
  }

  class BasicBlock {
    const name: string
    const instructions: InstructionList
    var predecessors: set<BasicBlock>
    var successors: set<BasicBlock>

    /** BasicBlock(name, parent): the name comes from the block namespace
        of the enclosing function's generator. */
    constructor (requested: string, generator: NameGenerator)
      requires generator.Valid()
      modifies generator
      ensures generator.Valid() && generator.values == old(generator.values)
      ensures name != "" && name !in old(generator.blocks) && generator.blocks == old(generator.blocks) + [name]
      ensures fresh(instructions) && instructions.items == [] && instructions.generator == generator
      ensures predecessors == {} && successors == {}
    {
      var n := generator.GenerateBlock(requested);
      name := n;
      instructions := new InstructionList(generator);
      predecessors := {};
      successors := {};
    }

    method AddPredecessor(p: BasicBlock)
      modifies this`predecessors
      ensures predecessors == old(predecessors) + {p}
    {
      predecessors := predecessors + {p};
    }

    method AddSuccessor(s: BasicBlock)
      modifies this`successors
      ensures successors == old(successors) + {s}
    {
      successors := successors + {s};
    }

    /** `is_empty`: no instructions, or a block that only jumps on. */
    function IsEmpty(): (r: bool)
      reads instructions
      ensures r <==> instructions.items == [] || IsBranchKind(instructions.items[|instructions.items| - 1].kind)
    {
      var items := instructions.items;
      |items| == 0 || IsBranchKind(items[|items| - 1].kind)
    }

    /** `get_terminator`: the last instruction when it is a terminator. */
    function GetTerminator(): (r: Option<Instruction>)
      reads instructions
      ensures r.Some? <==> instructions.items != [] && IsTerminatorKind(instructions.items[|instructions.items| - 1].kind)
      ensures r.Some? ==> r.value == instructions.items[|instructions.items| - 1]
    {
      var items := instructions.items;
      if |items| > 0 && IsTerminatorKind(items[|items| - 1].kind) then Some(items[|items| - 1]) else None
    }

    function HasTerminator(): (r: bool)
      reads instructions
      ensures r <==> instructions.items != [] && IsTerminatorKind(instructions.items[|instructions.items| - 1].kind)
    {
      GetTerminator().Some?
    }

    /** `find_instruction_idx`: the first position holding `inst`. */
    method FindInstructionIdx(inst: Instruction) returns (r: Option<nat>)
      ensures r.Some? ==> r.value < |instructions.items| && instructions.items[r.value] == inst
      ensures r.Some? ==> forall j :: 0 <= j < r.value ==> instructions.items[j] != inst
      ensures r.None? <==> inst !in instructions.items
    {
      var items := instructions.items;
      var idx := 0;
      while idx < |items|
        invariant 0 <= idx <= |items|
        invariant forall j :: 0 <= j < idx ==> items[j] != inst
      {
        if items[idx] == inst {
          return Some(idx);
        }
        idx := idx + 1;
      }
      r := None;
    }

    /** `validate`, with the helper that classifies terminators given as
        `isTerminator`. */
    function Validate(isTerminator: Kind -> bool): (r: Outcome<Error>)
      reads instructions
      ensures r.Fail? <==> instructions.items == [] || !isTerminator(instructions.items[|instructions.items| - 1].kind)
      ensures r.Fail? ==> r.error == NoBBTerminator(name + " BB has not terminator instruction")
    {
      var items := instructions.items;
      var message := name + " BB has not terminator instruction";
      if |items| > 0 then
        if !isTerminator(items[|items| - 1].kind) then Fail(NoBBTerminator(message)) else Pass
      else Fail(NoBBTerminator(message))
    }

    /** `render`, with the predecessors listed in `predOrder` (the order in
        which the set is iterated) and `renderList` standing for the helper
        that renders a parenthesised operand list. */
    method Render(predOrder: seq<BasicBlock>, renderList: seq<Operand> -> string) returns (r: Result<string, Error>)
      requires |predOrder| == |predecessors| && forall p :: p in predOrder <==> p in predecessors
      requires forall k :: 0 <= k < |instructions.items| ==> Ranked(instructions.items[k])
      ensures Body(instructions.items, renderList).Failure? ==> r == Failure(Body(instructions.items, renderList).error)
      ensures Body(instructions.items, renderList).Success? ==>
                r == Success(Header(name, BlockNames(predOrder)) + Body(instructions.items, renderList).value)
    {
      var names := BlockNames(predOrder);
      var out := "";
      if |predecessors| > 0 {
        out := out + "\n";
      }
      out := out + "<" + name + ">" + ": ";
      if |names| > 0 {
        out := out + "; pred: " + ListRepr(names);
      }
      out := out + "\n";
      assert out == Header(name, names);
      var body := RenderBody(instructions.items, renderList);
      if body.Failure? {
        return Failure(body.error);
      }
      r := Success(out + body.value);
    }
  }

  /** The block queries against each other: `validate` (with the terminator
      kinds of `get_terminator`) passes exactly when `has_terminator` holds,
      and a block that `is_empty` calls non-empty ends, when terminated, in a
      return or a conditional branch. A block ending in a branch is both
      empty and terminated. */
  lemma BlockQueriesAgree(b: BasicBlock)
    ensures b.HasTerminator() <==> b.GetTerminator().Some?
    ensures b.Validate(IsTerminatorKind).Pass? <==> b.HasTerminator()
    ensures b.instructions.items == [] ==> b.IsEmpty() && !b.HasTerminator()
    ensures b.HasTerminator() && !b.IsEmpty() ==>
              var last := b.GetTerminator().value; last.kind.Return? || last.kind.CondBranch?
    ensures b.instructions.items != [] && IsBranchKind(b.instructions.items[|b.instructions.items| - 1].kind) ==>
              b.IsEmpty() && b.HasTerminator()
  {
  }

  /** The loop of `render` over the instructions of a block. */
  method RenderBody(items: seq<Instruction>, renderList: seq<Operand> -> string) returns (r: Result<string, Error>)
    requires forall k :: 0 <= k < |items| ==> Ranked(items[k])
    ensures r == Body(items, renderList)
  {
    var out := "";
    var k := 0;
    while k < |items|
      invariant 0 <= k <= |items|
      invariant Body(items[..k], renderList) == Success(out)
    {
      var line := RenderLine(items[k], renderList);
      BodyStep(items, k, renderList);
      if line.Failure? {
        BodyPrefixFailure(items, k + 1, renderList);
        return Failure(line.error);
      }
      out := out + line.value;
      k := k + 1;
    }
    assert items[..k] == items;
    r := Success(out);
  }

  /** One iteration of the `render` loop: the indentation, the name when
      there is one, then the instruction's text. */
  method RenderLine(inst: Instruction, renderList: seq<Operand> -> string) returns (r: Result<string, Error>)
    requires Ranked(inst)
    ensures r == Line(inst, renderList)
  {
    var n := inst.Name();
    if n.Failure? {
      return Failure(n.error);
    }
    var prefix := if n.value.Some? then n.value.value + " = " else "";
    var s := Str(inst, renderList);
    if s.Failure? {
      return Failure(s.error);
    }
    r := Success("    " + prefix + s.value + "\n");
  }

  /** The names of the given blocks, in order. */
  function BlockNames(blocks: seq<BasicBlock>): (r: seq<string>)
    ensures |r| == |blocks| && forall k :: 0 <= k < |blocks| ==> r[k] == blocks[k].name
  {
    if blocks == [] then [] else BlockNames(blocks[..|blocks| - 1]) + [blocks[|blocks| - 1].name]
  }

  /** Python's `str` of a list of strings (without escaping). */
  function ListRepr(names: seq<string>): (r: string)
    ensures |r| >= 2 && r[0] == '[' && r[|r| - 1] == ']'
    ensures r == "[]" <==> names == []
  {
    "[" + QuotedJoin(names) + "]"
  }

  function QuotedJoin(names: seq<string>): (r: string)
    ensures r == "" <==> names == []
  {
    if names == [] then ""
    else if |names| == 1 then "'" + names[0] + "'"
    else QuotedJoin(names[..|names| - 1]) + ", '" + names[|names| - 1] + "'"
  }

  /** The header line of a rendered block. */
  function Header(name: string, predNames: seq<string>): (r: string)
    ensures |r| > 1 && r[|r| - 1] == '\n'
    ensures r[0] == '\n' <==> predNames != []
    ensures predNames == [] ==> r == "<" + name + ">: \n"
  {
    (if |predNames| > 0 then "\n" else "")
    + "<" + name + ">" + ": "
    + (if |predNames| > 0 then "; pred: " + ListRepr(predNames) else "")
    + "\n"
  }

  /** The line `render` emits for one instruction. */
  function Line(i: Instruction, renderList: seq<Operand> -> string): (r: Result<string, Error>)
    reads *
    requires Ranked(i)
    ensures r.Failure? <==> i.Name().Failure? || Str(i, renderList).Failure?
    ensures r.Success? ==> |r.value| > 4 && r.value[..4] == "    " && r.value[|r.value| - 1] == '\n'
  {
    var n :- i.Name();
    var s :- Str(i, renderList);
    Success("    " + (if n.Some? then n.value + " = " else "") + s + "\n")
  }

  /** The lines of `items`, in order; the first failing line's error. */
  function Body(items: seq<Instruction>, renderList: seq<Operand> -> string): (r: Result<string, Error>)
    reads *
    requires forall k :: 0 <= k < |items| ==> Ranked(items[k])
  {
    if items == [] then Success("")
    else
      var front :- Body(items[..|items| - 1], renderList);
      var line :- Line(items[|items| - 1], renderList);
      Success(front + line)
  }

  /** The body renders exactly when every line does, and a failing body
      carries the error of one of its lines. */
  lemma {:induction false} BodyLines(items: seq<Instruction>, renderList: seq<Operand> -> string)
    requires forall k :: 0 <= k < |items| ==> Ranked(items[k])
    ensures Body(items, renderList).Success? <==> forall k :: 0 <= k < |items| ==> Line(items[k], renderList).Success?
    ensures Body(items, renderList).Failure? ==>
              exists k :: 0 <= k < |items| && Line(items[k], renderList) == Failure(Body(items, renderList).error)
  {
    if items != [] {
      var front := items[..|items| - 1];
      BodyLines(front, renderList);
      assert forall k :: 0 <= k < |front| ==> front[k] == items[k];
    }
  }

  /** One more instruction: the body grows by its line, or takes its error. */
  lemma BodyStep(items: seq<Instruction>, k: nat, renderList: seq<Operand> -> string)
    requires k < |items|
    requires forall j :: 0 <= j < |items| ==> Ranked(items[j])
    requires Body(items[..k], renderList).Success?
    ensures Line(items[k], renderList).Failure? ==>
              Body(items[..k + 1], renderList) == Failure(Line(items[k], renderList).error)
    ensures Line(items[k], renderList).Success? ==>
              Body(items[..k + 1], renderList) == Success(Body(items[..k], renderList).value + Line(items[k], renderList).value)
  {
    assert items[..k + 1][..k] == items[..k];
  }

  /** An error in a prefix is the error of the whole body. */
  lemma {:induction false} BodyPrefixFailure(items: seq<Instruction>, k: nat, renderList: seq<Operand> -> string)
    requires k <= |items|
    requires forall j :: 0 <= j < |items| ==> Ranked(items[j])
    requires Body(items[..k], renderList).Failure?
    ensures Body(items, renderList) == Failure(Body(items[..k], renderList).error)
    decreases |items| - k
  {
    if k < |items| {
      var longer := items[..k + 1];
      assert longer[..k] == items[..k];
      BodyPrefixFailure(items, k + 1, renderList);
    } else {
      assert items[..k] == items;
    }
  }

  /** `str(x.name)` for a name read back: None prints as "None". */
  function NameText(n: Option<string>): string
  {
    match n
    case None => "None"
    case Some(s) => s
  }

  /** A BinOp renders exactly when its operator is one of the four in the
      table, and raises the invalid-operator fault otherwise. */
  lemma BinOpRendering(i: Instruction, renderList: seq<Operand> -> string)
    requires Ranked(i) && i.kind.BinOp?
    ensures Str(i, renderList).Success? <==> Opcodes.OP_ADD <= i.kind.op <= Opcodes.OP_DIV
    ensures Str(i, renderList).Failure? ==> Str(i, renderList).error == InvalidType(Opcodes.BinOpMessage)
  {
  }

  /** A bitwise instruction with an operator outside the table raises the
      invalid-operator fault before either operand is rendered. */
  lemma BitwiseRendering(i: Instruction, renderList: seq<Operand> -> string)
    requires Ranked(i) && i.kind.Bitwise?
    ensures !(Opcodes.SHL <= i.kind.op <= Opcodes.XOR) ==>
              Str(i, renderList) == Failure(InvalidType(Opcodes.BitwiseMessage(i.kind.op)))
    ensures Str(i, renderList).Success? ==> Opcodes.SHL <= i.kind.op <= Opcodes.XOR
  {
  }

  /** An alloca always renders. */
  lemma AllocaRendering(i: Instruction, renderList: seq<Operand> -> string)
    requires Ranked(i) && i.kind.Alloca?
    ensures Str(i, renderList) == Success("alloca [" + Text.IntToString(i.kind.count) + "]*")
  {
  }

  /** A call renders as `call`, the callee's name and the argument list;
      a callee without a name attribute raises, and one whose name is None
      makes the concatenation raise TypeError. */
  lemma CallRendering(i: Instruction, renderList: seq<Operand> -> string)
    requires Ranked(i) && i.kind.Call?
    ensures var n := OperandName(i.kind.callee);
            && (n.Failure? ==> Str(i, renderList) == Failure(n.error))
            && (n == Success(None) ==> Str(i, renderList) == Failure(TypeError))
            && (n.Success? && n.value.Some? ==>
                  Str(i, renderList) == Success("call " + " @" + n.value.value + renderList(i.kind.args)))
  {
  }

  /** A return renders `return void` for None, the text of a constant, and
      otherwise `str` of the value's name; without an operand it raises. */
  lemma ReturnRendering(i: Instruction, renderList: seq<Operand> -> string)
    requires Ranked(i) && i.kind.Return?
    ensures |i.operands| == 0 ==> Str(i, renderList) == Failure(IndexError)
    ensures |i.operands| > 0 && i.operands[0].NoValue? ==> Str(i, renderList) == Success("return void")
    ensures |i.operands| > 0 && i.operands[0].Literal? ==> Str(i, renderList) == Success("return " + i.operands[0].text)
    ensures |i.operands| > 0 && !i.operands[0].NoValue? && !i.operands[0].Literal? ==>
              var n := RhsName(i.operands[0]);
              && (n.Failure? ==> Str(i, renderList) == Failure(n.error))
              && (n.Success? ==> Str(i, renderList) == Success("return " + n.value))
  {
  }

  /** A select renders its three payload values in order; the first of them
      that raises decides the error. */
  lemma SelectRendering(i: Instruction, renderList: seq<Operand> -> string)
    requires Ranked(i) && i.kind.Select?
    ensures (RankedPayload(i);
             var c, t, f := OperandStr(i.kind.condition, renderList), OperandStr(i.kind.ifTrue, renderList),
                            OperandStr(i.kind.ifFalse, renderList);
             && (c.Failure? ==> Str(i, renderList) == Failure(c.error))
             && (c.Success? && t.Failure? ==> Str(i, renderList) == Failure(t.error))
             && (c.Success? && t.Success? && f.Failure? ==> Str(i, renderList) == Failure(f.error))
             && (c.Success? && t.Success? && f.Success? ==>
                   Str(i, renderList) == Success("select " + c.value + " " + t.value + " " + f.value)))
  {
  }

  /** A load renders as `load` and the alloca's name. */
  lemma LoadRendering(i: Instruction, renderList: seq<Operand> -> string)
    requires Ranked(i) && i.kind.Load?
    ensures var n := i.kind.alloca.Name();
            && (n.Failure? ==> Str(i, renderList) == Failure(n.error))
            && (n.Success? ==> Str(i, renderList) == Success("load " + NameText(n.value)))
  {
  }

  /** A store renders as `store`, the alloca's name and the stored value. */
  lemma StoreRendering(i: Instruction, renderList: seq<Operand> -> string)
    requires Ranked(i) && i.kind.Store?
    ensures (RankedPayload(i);
             var n, v := i.kind.alloca.Name(), OperandStr(i.kind.value, renderList);
             && (n.Failure? ==> Str(i, renderList) == Failure(n.error))
             && (n.Success? && v.Failure? ==> Str(i, renderList) == Failure(v.error))
             && (n.Success? && v.Success? ==> Str(i, renderList) == Success("store " + NameText(n.value) + ", " + v.value)))
  {
  }

  /** An unconditional branch always renders as `br` and the target's name. */
  lemma BranchRendering(i: Instruction, renderList: seq<Operand> -> string)
    requires Ranked(i) && i.kind.Branch?
    ensures Str(i, renderList) == Success("br " + i.kind.target.name)
  {
  }

  /** A conditional branch renders as `br`, the comparison's name, the
      value and both labels; a comparison without a name attribute raises,
      and one whose name is None makes the concatenation raise TypeError. */
  lemma CondBranchRendering(i: Instruction, renderList: seq<Operand> -> string)
    requires Ranked(i) && i.kind.CondBranch?
    ensures (RankedPayload(i);
             var k := i.kind;
             var n, v := OperandName(k.cmp), OperandStr(k.value, renderList);
             && (n.Failure? ==> Str(i, renderList) == Failure(n.error))
             && (n == Success(None) ==> Str(i, renderList) == Failure(TypeError))
             && (n.Success? && n.value.Some? && v.Failure? ==> Str(i, renderList) == Failure(v.error))
             && (n.Success? && n.value.Some? && v.Success? ==>
                   Str(i, renderList) == Success("br " + n.value.value + " " + v.value + ", label %"
                                                 + k.trueBlock.name + ", label %" + k.falseBlock.name)))
  {
    RankedPayload(i);
    var k := i.kind;
    var n, v := OperandName(k.cmp), OperandStr(k.value, renderList);
    if n.Success? && n.value.Some? && v.Success? {
      var head := "br " + n.value.value + " " + v.value;
      assert head + "," + " label %" + k.trueBlock.name == head + ", label %" + k.trueBlock.name;
    }
  }

  /** An integer comparison renders its condition mnemonic, the left
      operand's name and the right operand (a constant's text, otherwise
      its name); a code outside the table makes the concatenation raise. */
  lemma ICmpRendering(i: Instruction, renderList: seq<Operand> -> string)
    requires Ranked(i) && i.kind.ICmp?
    ensures var k := i.kind;
            var m, n := Opcodes.CompareStr(k.cond), OperandName(k.lhs);
            var rhs := if k.rhs.Literal? then Success(k.rhs.text) else RhsName(k.rhs);
            && (m.None? ==> Str(i, renderList) == Failure(TypeError))
            && (m.Some? && n.Failure? ==> Str(i, renderList) == Failure(n.error))
            && (m.Some? && n.Success? && rhs.Failure? ==> Str(i, renderList) == Failure(rhs.error))
            && (m.Some? && n.Success? && rhs.Success? ==>
                  Str(i, renderList) == Success("icmp " + m.value + " " + NameText(n.value) + ", " + rhs.value))
  {
  }

  /** A floating-point comparison renders its condition mnemonic and both
      operands; a code outside the table makes the concatenation raise. */
  lemma FCmpRendering(i: Instruction, renderList: seq<Operand> -> string)
    requires Ranked(i) && i.kind.FCmp?
    ensures (RankedPayload(i);
             var m := Opcodes.CompareStr(i.kind.cond);
             var l, r := OperandStr(i.kind.lhs, renderList), OperandStr(i.kind.rhs, renderList);
             && (m.None? ==> Str(i, renderList) == Failure(TypeError))
             && (m.Some? && l.Failure? ==> Str(i, renderList) == Failure(l.error))
             && (m.Some? && l.Success? && r.Failure? ==> Str(i, renderList) == Failure(r.error))
             && (m.Some? && l.Success? && r.Success? ==>
                   Str(i, renderList) == Success("fcmp " + m.value + " " + l.value + ", " + r.value)))
  {
  }

  /** The subclasses whose `__str__` returns None cannot be rendered. */
  predicate Unrenderable(k: Kind)
  {
    k.Plain? || k.Terminate? || k.Phi? || k.IndirectBranch? || k.Switch? || k.Cast? || k.Gep?
    || k.ExtractElement? || k.InsertElement?
  }

  /** The errors rendering can raise: never the refusal of an erase. */
  predicate RenderError(e: Error)
  {
    e.TypeError? || e.IndexError? || e.AttributeError? || e.InvalidType?
  }

  /** Rendering an instruction raises only rendering errors. */
  lemma {:induction false} StrRaisesRenderError(i: Instruction, renderList: seq<Operand> -> string)
    requires Ranked(i)
    ensures Str(i, renderList).Failure? ==> RenderError(Str(i, renderList).error)
    decreases i.depth
  {
    RankedPayload(i);
    var k := i.kind;
    if k.Select? {
      OperandStrRaisesRenderError(k.condition, i.depth, renderList);
      OperandStrRaisesRenderError(k.ifTrue, i.depth, renderList);
      OperandStrRaisesRenderError(k.ifFalse, i.depth, renderList);
    } else if k.Store? || k.CondBranch? {
      OperandStrRaisesRenderError(k.value, i.depth, renderList);
    } else if k.FCmp? || k.Bitwise? {
      OperandStrRaisesRenderError(k.lhs, i.depth, renderList);
      OperandStrRaisesRenderError(k.rhs, i.depth, renderList);
    }
  }

  lemma {:induction false} OperandStrRaisesRenderError(o: Operand, bound: nat, renderList: seq<Operand> -> string)
    requires BelowRanked(o, bound)
    ensures OperandStr(o, renderList).Failure? ==> RenderError(OperandStr(o, renderList).error)
    decreases bound, 0
  {
    if o.InstRef? {
      StrRaisesRenderError(o.inst, renderList);
    }
  }

  /** `o.name`. None has no name attribute, and a constant is taken to have
      none either: its base class `Value` defines no `name`. */
  function OperandName(o: Operand): (r: Result<Option<string>, Error>)
    reads if o.InstRef? then {o.inst} else {}
    ensures o.Literal? || o.NoValue? ==> r == Failure(AttributeError)
    ensures r.Failure? ==> r.error == AttributeError || r.error == IndexError
    ensures r.Failure? <==> o.Literal? || o.NoValue? || (o.InstRef? && o.inst.storedName == Some(""))
  {
    match o
    case InstRef(j) => j.Name()
    case BlockRef(b) => Success(Some(b.name))
    case Arg(n) => Success(Some(n))
    case Literal(_) => Failure(AttributeError)
    case NoValue => Failure(AttributeError)
  }

  /** `str(o)`. */
  function OperandStr(o: Operand, renderList: seq<Operand> -> string): (r: Result<string, Error>)
    reads *
    requires OperandRanked(o)
    ensures !o.InstRef? ==> r.Success?
    decreases OperandDepth(o), 1
  {
    match o
    case InstRef(j) => Str(j, renderList)
    case BlockRef(b) => Success("<" + b.name + ">")
    case Arg(n) => Success(n)
    case Literal(t) => Success(t)
    case NoValue => Success("None")
  }

  /** `str(i)`: the text of one instruction. A subclass whose `__str__`
      returns None makes `str` raise TypeError. */
  function Str(i: Instruction, renderList: seq<Operand> -> string): (r: Result<string, Error>)
    reads *
    requires Ranked(i)
    ensures Unrenderable(i.kind) ==> r == Failure(TypeError)
    decreases i.depth, 0
  {
    RankedPayload(i);
    match i.kind
    case Plain => Failure(TypeError)
    case Call(callee, args) =>
      var n :- OperandName(callee);
      if n.None? then Failure(TypeError) else Success("call " + " @" + n.value + renderList(args))
    case Terminate => Failure(TypeError)
    case Return =>
      if |i.operands| == 0 then Failure(IndexError)
      else (
        match i.operands[0]
        case NoValue => Success("return void")
        case Literal(t) => Success("return " + t)
        case _ =>
          var n :- OperandName(i.operands[0]);
          Success("return " + NameText(n)))
    case Select(c, t, f) =>
      var sc :- OperandStr(c, renderList);
      var st :- OperandStr(t, renderList);
      var sf :- OperandStr(f, renderList);
      Success("select " + sc + " " + st + " " + sf)
    case Load(alloca) =>
      var n :- alloca.Name();
      Success("load " + NameText(n))
    case Store(alloca, v) =>
      var n :- alloca.Name();
      var sv :- OperandStr(v, renderList);
      Success("store " + NameText(n) + ", " + sv)
    case BinOp(op) =>
      var m :- Opcodes.BinOpMnemonic(op);
      Success(m + renderList(i.operands))
    case Alloca(count) => Success("alloca [" + Text.IntToString(count) + "]*")
    case Phi => Failure(TypeError)
    case Branch(target) => Success("br " + target.name)
    case CondBranch(cmp, v, t, f) =>
      var n :- OperandName(cmp);
      if n.None? then Failure(TypeError)
      else
        var sv :- OperandStr(v, renderList);
        Success("br " + n.value + " " + sv + "," + " label %" + t.name + ", label %" + f.name)
    case IndirectBranch(_) => Failure(TypeError)
    case Switch => Failure(TypeError)
    case Compare(_, _, _) => Success("Compare Instruction")
    case ICmp(cond, l, r) =>
      var m := Opcodes.CompareStr(cond);
      if m.None? then Failure(TypeError)
      else
        var n1 :- OperandName(l);
        var s2 :- if r.Literal? then Success(r.text) else RhsName(r);
        Success("icmp " + m.value + " " + NameText(n1) + ", " + s2)
    case FCmp(cond, l, r) =>
      var m := Opcodes.CompareStr(cond);
      if m.None? then Failure(TypeError)
      else
        var s1 :- OperandStr(l, renderList);
        var s2 :- OperandStr(r, renderList);
        Success("fcmp " + m.value + " " + s1 + ", " + s2)
    case Cast => Failure(TypeError)
    case Gep => Failure(TypeError)
    case ExtractElement(_, _) => Failure(TypeError)
    case InsertElement => Failure(TypeError)
    case Bitwise(op, l, r) =>
      var m :- Opcodes.BitwiseMnemonic(op);
      var s1 :- OperandStr(l, renderList);
      var s2 :- OperandStr(r, renderList);
      Success(m + " " + s1 + ", " + s2)
  }

  /** `str(o.name)`. */
  function RhsName(o: Operand): (r: Result<string, Error>)
    reads if o.InstRef? then {o.inst} else {}
    ensures r.Success? <==> OperandName(o).Success?
    ensures OperandName(o) == Success(None) ==> r == Success("None")
  {
    var n :- OperandName(o);
    Success(NameText(n))
  }
}
