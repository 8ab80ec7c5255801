# spiderjit IR core in Dafny

This project models the intermediate representation of the spiderjit compiler
(`src/ir/instructions.py`). It covers:

- the use-def bookkeeping of instructions: every instruction operand records the new user;
- the removal of an instruction from its block (`erase_from_parent`);
- the `InstructionList` that names instructions as they enter a block;
- the `%` name normalisation;
- basic blocks: control-flow edges, terminator and emptiness queries, validation and textual rendering;
- the three closed operator tables (arithmetic, bitwise, comparison);
- the `__str__` of every instruction kind.

Modules:

- `Wrappers`: `Option`, `Result`, `Outcome`.
- `Errors`: the exceptions the core raises, as values.
- `Text`: Python's `str` of an integer, with its parse round trip.
- `Opcodes`: the operator tables with their inverses.
- `PyList`: the CPython list behaviour the core relies on.
  - `insert` clamps its index.
  - `remove` drops the first equal element.
  - A `for` loop that removes from the list it iterates over (`Sweep`).
- `Naming`: the `name` getter and a fresh-name generator.
- `IR`: the operand and kind datatypes, and the classes `Instruction`, `InstructionList` and `BasicBlock`, with rendering.
- `InstructionKinds`: one constructor method per instruction subclass.
- `Scenarios`: concrete programs built with the model, each with the outcome it is proved to have.

The state the source updates in place lives in classes:

- an instruction's operands, uses, stored name and parent;
- a block's instruction list and its predecessor and successor sets;
- the generator's issued names.

Renderings, the name getter and the operator tables are functions. The loops of the source are methods with loop invariants:
- the use registration in `Instruction.__init__`;
- the two scans and the removal loop of `erase_from_parent`;
- `find_instruction_idx`;
- the accumulation loop of `render`.

Each method is proved against a specification function.

A rendering takes `renderList`, the helper `render_list_with_parens`, as a parameter. Validation takes `isTerminator`, the helper `is_terminator_instruction`, as a parameter. Neither helper is part of this model.

## Model

| member | source | states |
|---|---|---|
| Naming.ReadName | src/ir/instructions.py:95-103 | no stored name reads back as None; an empty stored name raises IndexError; any other name reads back starting with `%` |
| Naming.ReadNameAddsOneSigil | src/ir/instructions.py:100-103 | a name that has the `%` is returned unchanged; otherwise exactly one `%` is prepended and the rest is the stored name |
| Naming.ReadNameIdempotent | src/ir/instructions.py:95-103 | reading back a name that was already read back gives it unchanged |
| Naming.NameGenerator.Generate | src/ir/instructions.py:15 | the value name handed to `append`/`insert` is non-empty and was never issued before |
| Naming.NameGenerator.GenerateBlock | src/ir/instructions.py:606 | the block name handed to a new block is non-empty and was never issued before in the block namespace |
| Text.IntToString | src/ir/instructions.py:302 | the numeral `%s` prints for an integer is non-empty and starts with `-` exactly when the integer is negative |
| Text.ParseIntToString | src/ir/instructions.py:302 | the printed numeral parses back to the integer, so distinct counts print differently |
| Opcodes.BinOpMnemonic | src/ir/instructions.py:251-261 | tags 0..3 render as add, sub, mul, div; any other tag raises InvalidTypeException with the fixed message |
| Opcodes.BinOpMnemonicRoundTrip | src/ir/instructions.py:252-259 | the arithmetic table is a bijection: a mnemonic reads back to exactly the tag that renders it |
| Opcodes.BitwiseMnemonic | src/ir/instructions.py:552-566 | tags 0..5 render as shl, lshr, ashr, and, or, xor; any other tag raises InvalidTypeException naming that tag |
| Opcodes.BitwiseMnemonicRoundTrip | src/ir/instructions.py:553-564 | the bitwise table is a bijection between its six tags and their mnemonics |
| Opcodes.CompareStr | src/ir/instructions.py:400-420 | tags 1..10 have a predicate mnemonic; every other tag gives None |
| Opcodes.CompareStrRoundTrip | src/ir/instructions.py:400-420 | the ten comparison tags and their mnemonics correspond one to one |
| PyList.InsertPosition | src/ir/instructions.py:23 | where `list.insert` puts the element: the index itself inside the list, counted from the end when negative, clamped to the nearer end outside |
| PyList.Inserted | src/ir/instructions.py:23 | the list grows by one and holds the new element at its insert position |
| PyList.InsertedThenDeleted | src/ir/instructions.py:23 | deleting the inserted slot gives back the original list, so every other element keeps its order |
| PyList.InsertLandsBefore | src/ir/instructions.py:23 | for an index inside the list, the new element lands immediately before the element that index denoted |
| PyList.FirstIndex | src/ir/instructions.py:66 | the first position holding the element |
| PyList.RemoveFirst | src/ir/instructions.py:66 | `list.remove` drops exactly one copy of the element, the first one: the elements before its first index stay in place and those after it move down by one |
| PyList.RemoveFirstKeepsOthers | src/ir/instructions.py:66 | `list.remove` keeps all other elements in their order |
| PyList.Sweep | src/ir/instructions.py:64-66 | the remove-while-iterating loop, with the CPython iterator index that skips the element sliding into a removed slot, never adds elements |
| PyList.SweepAbsent | src/ir/instructions.py:64-66 | the remove-while-iterating loop changes nothing when the element is absent |
| PyList.SweepKeepsOthers | src/ir/instructions.py:64-66 | the loop keeps every other element, in order |
| PyList.SweepRemoves | src/ir/instructions.py:64-66 | the loop never adds copies of the element, and removes at least one when the list holds it |
| PyList.SweepSingle | src/ir/instructions.py:64-66 | when the element occurs once, the loop removes exactly that occurrence |
| IR.Instruction.constructor | src/ir/instructions.py:32-44 | the fields are stored as given, `uses` starts empty, and every instruction operand gains one trailing use entry per occurrence of it in the operand list; nothing else changes |
| IR.NeedsName | src/ir/instructions.py:32-37 | the `needs_name` flag: False for a return, a store and every branch kind; True for a call, load, arithmetic, alloca, select, bitwise and comparison instruction |
| IR.IsBranchKind | src/ir/instructions.py:645 | `isinstance(_, BranchInstruction)` holds for an indirect branch (a subclass) but not for a conditional branch |
| IR.IsTerminatorKind | src/ir/instructions.py:655 | the kinds `get_terminator` accepts include every branch kind, and none of them needs a name |
| IR.Instruction.AddUse | src/ir/instructions.py:72-73 | appends the user to `uses` |
| IR.Instruction.RemainingUses | src/ir/instructions.py:51-56 | the nested scan collects each user once per matching operand, in order, as `Remaining` specifies |
| IR.Remaining | src/ir/instructions.py:51-56 | everything the scan collects is a recorded user |
| IR.Hits | src/ir/instructions.py:54-56 | one entry per operand equal to the compared value |
| IR.RemainingNonEmpty | src/ir/instructions.py:51-58 | the scan collects something exactly when some user has the compared value among its operands |
| IR.Instruction.UserHoldsItself | src/ir/instructions.py:51-58 | the guard as written holds exactly when the scan comparing with the user collects something |
| IR.Instruction.HasLiveUser | src/ir/instructions.py:51-58 | the intended guard holds exactly when the scan comparing with this instruction collects something |
| IR.Instruction.CheckUses | src/ir/instructions.py:51-62 | without a match the check passes; with one it refuses, with the error that printing the instruction and the collected users ends in |
| IR.Instruction.Refuse | src/ir/instructions.py:59-62 | the first `str` that raises decides the error; otherwise the uses-remain exception is raised |
| IR.FirstRenderError | src/ir/instructions.py:59-61 | None exactly when every listed instruction renders; otherwise the error of the first that does not, which is a rendering error |
| IR.RefusalError | src/ir/instructions.py:58-62 | the refusal is the uses-remain exception exactly when every printed instruction renders |
| IR.Instruction.EraseFromParentAsWritten | src/ir/instructions.py:46-66 | refuses exactly when some user holds itself as an operand; with no parent, raises AttributeError; on refusal the block's list is unchanged; otherwise the instruction is swept out of the list |
| IR.Instruction.EraseFromParent | src/ir/instructions.py:46-66 | the same with the intended guard: refuses exactly when some user still holds this instruction; a successful erase leaves no recorded user holding it |
| IR.InstructionList.constructor | src/ir/instructions.py:9-11 | an empty list bound to the given generator |
| IR.InstructionList.NameIfNeeded | src/ir/instructions.py:14-15 | an instruction that needs a name gets a fresh, non-empty one; otherwise neither its name nor the generator changes |
| IR.InstructionList.Append | src/ir/instructions.py:13-17 | the list grows by the instruction at the end, named first when it needs a name |
| IR.InstructionList.Insert | src/ir/instructions.py:19-23 | the list is the old list with the instruction at its clamped position, named first when it needs a name |
| IR.InstructionList.Concat | src/ir/instructions.py:26-27 | concatenation always raises NotImplementedError |
| IR.InstructionList.SweepOut | src/ir/instructions.py:64-66 | the removal loop leaves exactly `Sweep` of the old list |
| IR.BasicBlock.constructor | src/ir/instructions.py:605-611 | the name is a fresh block name; the instruction list is new and empty; there are no edges |
| IR.BasicBlock.AddPredecessor | src/ir/instructions.py:621-622 | set insertion into the predecessors |
| IR.BasicBlock.AddSuccessor | src/ir/instructions.py:624-625 | set insertion into the successors |
| IR.BasicBlock.IsEmpty | src/ir/instructions.py:643-648 | no instructions, or the last is a branch (an indirect branch included) |
| IR.BasicBlock.GetTerminator | src/ir/instructions.py:650-658 | the last instruction exactly when it is a return, a branch or a conditional branch |
| IR.BasicBlock.HasTerminator | src/ir/instructions.py:660-664 | a terminator is present exactly when the list ends in one |
| IR.BasicBlock.FindInstructionIdx | src/ir/instructions.py:666-672 | the smallest index holding the instruction, or None exactly when it is absent |
| IR.BasicBlock.Validate | src/ir/instructions.py:674-682 | raises NoBBTerminatorException with `name + " BB has not terminator instruction"` exactly when the list is empty or its last instruction is not a terminator |
| IR.BlockQueriesAgree | src/ir/instructions.py:643-682 | with the terminator kinds of `get_terminator`, `validate` passes exactly when `has_terminator` holds; a block ending in a branch is both empty and terminated; a terminated block that is not empty ends in a return or a conditional branch |
| IR.BasicBlock.Render | src/ir/instructions.py:684-704 | the header line (a leading newline and the predecessor list when there are predecessors) followed by the body, or the first rendering error |
| IR.RenderBody | src/ir/instructions.py:696-702 | the loop yields `Body`: one line per instruction, in list order, or the first error |
| IR.RenderLine | src/ir/instructions.py:697-702 | four spaces, `name = ` when named, the instruction's text, a newline |
| IR.BlockNames | src/ir/instructions.py:685 | the predecessor names, in the given order |
| IR.ListRepr | src/ir/instructions.py:693 | `str` of the predecessor name list is bracketed, and is `[]` exactly for an empty list |
| IR.Header | src/ir/instructions.py:687-695 | the header line ends in a newline and starts with one exactly when there are predecessors; without predecessors it is `<name>: ` |
| IR.Line | src/ir/instructions.py:697-702 | an instruction's line fails exactly when its name or its text fails; otherwise it starts with four spaces and ends in a newline |
| IR.BodyLines | src/ir/instructions.py:696-702 | the body renders exactly when every line does, and a failing body carries the error of one of its lines |
| IR.BodyStep | src/ir/instructions.py:696-702 | one more instruction extends the body by its line, or ends it with its error |
| IR.BodyPrefixFailure | src/ir/instructions.py:696-702 | an error in some line is the error of the whole rendering |
| IR.Str | src/ir/instructions.py:109-110 | a kind whose `__str__` returns None (the base class and the Terminate, Phi, IndirectBranch, Switch, Cast, GEP, ExtractElement and InsertElement subclasses) makes `str` raise TypeError |
| IR.StrRaisesRenderError | src/ir/instructions.py:109-569 | rendering an instruction raises only TypeError, IndexError, AttributeError or InvalidTypeException, never the uses-remain exception |
| IR.OperandStr | src/ir/instructions.py:706-707 | `str` of a block (`<name>`), of an argument (its name, src/ir/value.py:18-19), of a constant or of None always succeeds; only an instruction's text can raise |
| IR.OperandStrRaisesRenderError | src/ir/value.py:18-19 | `str` of an operand (a block, an argument, a constant, None or an instruction) raises only rendering errors |
| IR.OperandName | src/ir/instructions.py:95-103 | `.name` of an instruction is the getter, of a block or an argument its stored name; a constant, taken to have no `name` attribute, and None raise AttributeError; it raises exactly for those and for an instruction whose stored name is empty (IndexError) |
| IR.RhsName | src/ir/instructions.py:157-164 | `str(o.name)` succeeds exactly when `.name` does, and a missing name prints as `None` |
| IR.CallRendering | src/ir/instructions.py:131-136 | `call  @` and the callee's name and the rendered argument list; a callee without a name attribute raises its error, a name of None raises TypeError |
| IR.ReturnRendering | src/ir/instructions.py:157-164 | `return void` for None, `return` and a constant's text, otherwise `return` and `str` of the value's name; with no operand, IndexError |
| IR.SelectRendering | src/ir/instructions.py:188-190 | `select` and the three values, or the error of the first that raises |
| IR.LoadRendering | src/ir/instructions.py:202-205 | `load` and the alloca's name (`None` when unnamed), or the name getter's error |
| IR.StoreRendering | src/ir/instructions.py:223-226 | `store`, the alloca's name, `, ` and the stored value, or the first error |
| IR.BinOpRendering | src/ir/instructions.py:251-264 | an arithmetic instruction renders exactly when its tag is in the table |
| IR.BitwiseRendering | src/ir/instructions.py:552-569 | a bitwise instruction with a tag outside the table raises before either operand is rendered |
| IR.AllocaRendering | src/ir/instructions.py:301-303 | an alloca always renders as `alloca [n]*` |
| IR.BranchRendering | src/ir/instructions.py:329-331 | a branch always renders as `br` and the target block's name |
| IR.CondBranchRendering | src/ir/instructions.py:364-369 | `br`, the comparison's name, the value, then `, label %` and each target's name; a comparison without a name attribute raises its error, a name of None raises TypeError, then the value's error |
| IR.ICmpRendering | src/ir/instructions.py:452-461 | `icmp`, the condition mnemonic, the left operand's name, `, ` and the right operand (a constant's text, otherwise its name); a condition outside the table raises TypeError before any operand is read |
| IR.FCmpRendering | src/ir/instructions.py:470-474 | `fcmp`, the condition mnemonic and both operands' text; a condition outside the table raises TypeError, then the first operand error decides |
| InstructionKinds.NewCall | src/ir/instructions.py:116-121 | operands are the callee then the arguments, each registering a use |
| InstructionKinds.NewTerminate | src/ir/instructions.py:142-143 | no operands; needs a name |
| InstructionKinds.NewReturn | src/ir/instructions.py:150-151 | one operand (None for no value); never named |
| InstructionKinds.NewSelect | src/ir/instructions.py:170-174 | the condition and both values are operands |
| InstructionKinds.NewLoad | src/ir/instructions.py:196-200 | no operands and no use registered; AssertionError exactly when the loaded instruction is not an alloca |
| InstructionKinds.NewStore | src/ir/instructions.py:208-213 | no operands, no use registered, never named; AssertionError exactly when the target is not an alloca |
| InstructionKinds.NewBinOp | src/ir/instructions.py:235-237 | both sides are operands; the tag is kept unchecked |
| InstructionKinds.NewAdd | src/ir/instructions.py:269-271 | an arithmetic instruction with tag OP_ADD |
| InstructionKinds.NewSub | src/ir/instructions.py:274-276 | an arithmetic instruction with tag OP_SUB |
| InstructionKinds.NewMul | src/ir/instructions.py:279-281 | an arithmetic instruction with tag OP_MUL |
| InstructionKinds.NewDiv | src/ir/instructions.py:284-286 | an arithmetic instruction with tag OP_DIV |
| InstructionKinds.NewAlloca | src/ir/instructions.py:290-295 | no operands; a missing count means 1 |
| InstructionKinds.NewPhi | src/ir/instructions.py:309-310 | no operands; needs a name |
| InstructionKinds.NewBranch | src/ir/instructions.py:317-323 | the target block is the one operand; never named; inside a block it adds the edge on both sides and keeps the edges symmetric; outside a block no block changes |
| InstructionKinds.NewIndirectBranch | src/ir/instructions.py:373-374 | built exactly as a branch |
| InstructionKinds.NewCondBranch | src/ir/instructions.py:335-346 | the operands are the comparison and both targets, not the value; inside a block it adds both edges on both sides, keeps the edges symmetric and changes no other edge of the three blocks; outside a block no block changes |
| InstructionKinds.Connect | src/ir/instructions.py:321-323 | the edge is added as a successor and as a predecessor, and nothing else about the two blocks' edges changes |
| InstructionKinds.ConnectBoth | src/ir/instructions.py:342-346 | both edges of a conditional branch are added, and nothing else about the three blocks' edges changes |
| InstructionKinds.NewSwitch | src/ir/instructions.py:381-382 | no operands; needs a name |
| InstructionKinds.NewCompare | src/ir/instructions.py:424-428 | both compared values are operands; the condition is kept unchecked |
| InstructionKinds.NewICmp | src/ir/instructions.py:449-450 | built as a comparison |
| InstructionKinds.NewFCmp | src/ir/instructions.py:467-468 | built as a comparison |
| InstructionKinds.NewCast | src/ir/instructions.py:481-482 | no operands; needs a name |
| InstructionKinds.NewGep | src/ir/instructions.py:491-492 | no operands; needs a name |
| InstructionKinds.NewExtractElement | src/ir/instructions.py:501-504 | no operands, so no use is registered on the vector or the index |
| InstructionKinds.NewInsertElement | src/ir/instructions.py:521-522 | no operands; needs a name |
| InstructionKinds.NewBitwise | src/ir/instructions.py:538-542 | both sides are operands; the tag is kept unchecked |
| InstructionKinds.NewShiftLeft | src/ir/instructions.py:574-576 | a bitwise instruction with tag SHL |
| InstructionKinds.NewLogicalShiftRight | src/ir/instructions.py:579-581 | a bitwise instruction with tag LSHR |
| InstructionKinds.NewArithmeticShiftRight | src/ir/instructions.py:584-586 | a bitwise instruction with tag ASHR |
| InstructionKinds.NewAnd | src/ir/instructions.py:589-591 | a bitwise instruction with tag AND |
| InstructionKinds.NewOr | src/ir/instructions.py:594-596 | a bitwise instruction with tag OR |
| InstructionKinds.NewXor | src/ir/instructions.py:599-601 | a bitwise instruction with tag XOR |
| Scenarios.EraseUsedAlloca | src/ir/instructions.py:46-66 | an alloca added to itself: the intended guard refuses the erase with the uses-remain exception; the guard as written lets it through, and the addition is left reading an instruction that is no longer in the block |
| Scenarios.RefusedErase | src/ir/instructions.py:51-62 | the intended guard refuses and leaves the list unchanged |
| Scenarios.ErasedAsWritten | src/ir/instructions.py:51-66 | the guard as written passes and the alloca is swept out |
| Scenarios.AllocaAndUserRender | src/ir/instructions.py:58-62 | the collected users and the alloca all render, so the refusal is the uses-remain exception itself |
| Scenarios.RemainingOfDoubleUse | src/ir/instructions.py:51-56 | two use entries by a user that reads the alloca twice give four collected entries |
| Scenarios.BranchBetweenBlocks | src/ir/instructions.py:316-323 | a branch from A to B records the edge on both sides, and A counts as empty although it holds the branch |
| Scenarios.InvalidBitwiseOperator | src/ir/instructions.py:552-566 | a bitwise instruction with tag 99 is built and only fails when rendered |
| Scenarios.EntryBlock | src/ir/instructions.py:684-704 | a block holding an alloca, a store, a load and a return validates and renders the four lines with generated names |
| Scenarios.EntryBody | src/ir/instructions.py:696-702 | the four instruction lines of that block, in order |
| Scenarios.AllocaLine | src/ir/instructions.py:301-303 | `    %1 = alloca [1]*` |
| Scenarios.StoreLine | src/ir/instructions.py:223-226 | `    store %1, 5` |
| Scenarios.LoadLine | src/ir/instructions.py:202-205 | `    %2 = load %1` |
| Scenarios.ReturnLine | src/ir/instructions.py:157-164 | `    return %2` |

## Left out

- The diagnostic `print`s of `erase_from_parent` are output. The model keeps only their effect: `str` of the instruction and of each collected user is evaluated before the refusal. A rendering error there replaces the uses-remain exception.
- `render_list_with_parens` and `is_terminator_instruction` come from `src/ir/utils.py`, which is not part of this model. Both are parameters.
- IR.BinOpRendering: takes `renderList`, the stand-in for `render_list_with_parens`, as a total function of the operand list that never raises and does not read operand names. That the arithmetic instruction renders exactly when its tag is in the table rests on this; a helper that raised (say on an operand without a name) would add failures the model does not show.
- IR.CallRendering: that a call with a named callee always renders rests on the same assumption about `renderList`.
- IR.BlockQueriesAgree: relates `validate` to `has_terminator` only when `is_terminator_instruction` accepts the kinds `get_terminator` accepts. The source does not show that helper.
- `Number`, from `src/ir/constants.py`, is not part of this model. A number operand is the `Literal` case; its text is its `str`. A constant is taken to have no `name` attribute (`Value`, src/ir/value.py:5-7, defines none), so `hasattr(op, "name")` is false for it and reading `.name` raises AttributeError. IR.OperandName, IR.ReturnRendering, IR.ICmpRendering, IR.CondBranchRendering and IR.CallRendering rest on this for constant operands.
- `src/ir/value.py` is folded into the operand type. An `Argument` is the `Arg` case; both its name and its `str` are the argument name.
- The `@verify` type guards and the `Validator` base class are subsumed by Dafny's typing.
- Naming.NameGenerator: the real generator (`generate`, `generate_bb`) is not part of this model. The class is a stand-in that keeps the contract the core relies on: a non-empty name, never issued before in its namespace. Its numbering (1, 2, … for values) is its own, and only the scenarios depend on it.
- The predecessor order in `render` is Python's set iteration order, which is unspecified. `Render` takes that order as an argument.
- `str` of the predecessor name list is modelled as quoting each name with `'`. Python's escaping of quotes and backslashes inside names is not modelled.
- `inst_idx` and the `parent` setters are plain attribute accessors. `inst_idx` is stored (-1 at construction) and never read by the core.
- The enclosing function of a block (`BasicBlock.parent`) is not part of this model. A block receives the generator directly.
- `Instruction.__init__`'s shared default operand list is a Python artefact and is not modelled.
- IR.Instruction.constructor: requires `PayloadRanked`, so that the new instruction is `Ranked` (a model-only depth). The depth bounds only the payload kept in private fields: the condition and values of a select, the stored value of a store, the value of a conditional branch, and the operands of a floating-point comparison and of a bitwise instruction. Python fills those fields from objects that already exist when the constructor runs, and nothing reassigns them later. So the requirement excludes only a hand-made payload that refers to the instruction being built, or to one built after it, which no constructor call can produce. The public `operands` list is not constrained.
- InstructionKinds.NewSelect: carries the same requirement, for its condition and both values.
- InstructionKinds.NewStore: carries the same requirement, for the stored value.
- InstructionKinds.NewCondBranch: carries the same requirement, for the value.
- InstructionKinds.NewFCmp: carries the same requirement, for both compared values.
- InstructionKinds.NewBitwise: carries the same requirement, for both operands. So do the six bitwise subclasses that call it.

## Findings

| source | as written | input that shows it | evidently intended | confidence | as-written member | corrected member |
|---|---|---|---|---|---|---|
| src/ir/instructions.py:55 | the scan compares each operand of a user with the user itself (`op == use`), so a user that still reads the instruction does not stop its removal | an alloca `x` and `u = add x, x` in one block: erasing `x` removes it, and `u` still reads `x` | compare with the instruction being erased (`op == self`), refusing while any user still reads it | not executed | IR.Instruction.EraseFromParentAsWritten (Scenarios.EraseUsedAlloca) | IR.Instruction.EraseFromParent |
