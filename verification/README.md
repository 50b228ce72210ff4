# Lua's code generator, garbage collector and tables: a verified model

The repository embeds Lua 5.1 (`src/lua/`). This project models the three parts of it whose
correctness rests on invariants that no single function shows, and proves what each is for.

**The expression compiler** (`lcode.c`, with the expression part of `lparser.c`). The compiler
makes one pass over the tokens and emits code before it knows where that code will jump, where
its value will go, or even whether its value is wanted. Unfinished jumps are threaded through
the instructions themselves as linked lists; a `LOADNIL` already emitted may still be widened;
a comparison may later become a branch, a value, or neither. The model keeps the source's state
(`FuncState`, `expdesc`, `LexState`) and operations, and gives an unfinished piece of code a
meaning: run to its end, or up to a jump that still waits for its target (`CodeSem.dfy`,
`ExprSpec.dfy`). Every operation preserves that meaning. The result, for whole functions
(`CompileReturn`, `CompileIf`): on all arguments, a model of the virtual machine
(`LuaVM.dfy`) started at the first instruction does what the reference semantics of the
expression says, errors included; the tree is the one that the manual's priorities prescribe and
there is only one (`Meaning.dfy` says so operator by operator); and a failure is always explained
by a limit or by the text, so that every text small enough for the limits compiles.

**The collector** (`lgc.c`, with `lfunc.c` and the string table of `lstring.c`). An incremental
mark and sweep collector with two whites, gray lists, forward and backward barriers, open
upvalues and a string table that can bring dead strings back. The heap is modelled object by
object with its mark bits and lists, the collector as methods of `GlobalState`. One invariant
(`GcHeap.Inv`) holds between any two steps, whatever the program does in between. From it:
safety over every run, exactness of a full collection and of an incremental one with the program
running in between, that closures sharing a variable keep sharing it, and that the collector is
invisible: runs of one program differ only in the names of objects, however its steps fall.

**Tables** (`ltable.c`). An array part and a chained hash part with Brent's variation. The class
`Table` refines a finite map: look-up, insertion with its collisions, rehash and resize, the
traversal with `next` while fields are assigned, and the length operator.

Objects that the source updates in place are classes with those fields and `modifies` clauses;
their methods are proved against functions on snapshots of the state. Ghost parameters and
results name what the source keeps implicit: the elements of a jump list, the expression that a
descriptor stands for, the set of objects a mark phase may reach.

## Model

Paths are relative to the repository. "Explained" means: a failure is one of the errors the
source raises there, and the state shows why (`Limits.dfy`).

| member | source | states |
|---|---|---|
| Statements.CompileReturn | src/lua/lparser.c:1238-1268 | The function `return e`. If compilation succeeds, the tokens spell exactly one grouped tree, and for every call (any constants from the function's own on, any arguments, nil in the registers above them) the machine, started at the first instruction, ends by returning the value of that tree and nothing else, or raises an error exactly when the tree does. Every such text of at most 40 tokens compiles, as does every one of at most 2900 whose nesting is at most 190 and, with the parameters, at most 240; more precisely every one that is small enough for the limits. |
| Statements.CompileIf | src/lua/lparser.c:1141-1162 | The function `if c then return x end`. If compilation succeeds the tokens are such a text, and for its two trees and every call, as above, the machine raises an error if c does, returns no value if c is nil or false, and otherwise returns the value of x or raises its error. Every such text of at most 40 tokens compiles; the longer ones as above. |
| Statements.TestThenBlock | src/lua/lparser.c:1130-1138 | Wherever the statement stands: the code of condition and block, in the order the generator emits and patches it. The condition's true exits lead into the block, its false exits are the returned list, which survives the block, and the block returns its value. Failures are explained. |
| Statements.IfStat | src/lua/lparser.c:1141-1162 | Afterwards the false exits of the condition wait for the next instruction; the text read is `if c then return x end`. Failures are explained. |
| Statements.Cond | src/lua/lparser.c:965-972 | The code falls through when the condition is true; the returned list holds exactly the jumps taken when it is false. A final nil compiled as false makes no difference. |
| Statements.CondRuns | src/lua/lparser.c:965-972 | Of the runs to the end of the condition's code and to the place where its exits were sent, exactly the one that the condition's truth value selects falls out there; an error is an error of the condition. |
| Statements.RetOne | src/lua/lparser.c:1238-1268 | A single returned value: the code from there on puts it into a register, on every input and with the registers below kept, and ends with the RETURN of that register. Failures are explained. |
| Statements.Chunk | src/lua/lparser.c:1325-1337 | One `return e`: nesting level counted and restored, no register left in use afterwards. Failures are explained, the nesting limit among them. |
| Statements.IfEnds | src/lua/lparser.c:356-380 | Once close_func's RETURN resolves the pending exits, the machine arrives at the final RETURN when the condition is false, and at the conditional one with the value of x otherwise. |
| Statements.ReturnDelivers | src/lua/lparser.c:356-380 | The same for `return e`: the machine arrives at its RETURN with the value in the register returned, for every input the emitted code can be started with. |
| Statements.ReachesReturn | src/lua/lvm.c:639-654 | A machine that arrives at a RETURN ends with the values of the registers it names. |
| Parsing.TextCosts | src/lua/lparser.c:828-853 | What the text of a tree can cost in instructions, constants, registers and nesting is bounded by its number of tokens. |
| Machine.ValueRun | src/lua/lcode.c:414-433 | Code left by exp2nextreg or exp2anyreg, once another instruction follows: on all inputs it ends with the value of the expression in the register the descriptor names and the lower registers as they were, or raises an error exactly when the expression does. |
| Machine.BranchRuns | src/lua/lcode.c:539-583 | Code left by goiftrue or goiffalse, with its exits sent to q: the machine goes on behind the branch exactly when the value has the wanted truth, and to q exactly when it has the other; errors as above. TestThenBlock and IfEnds establish the hypothesis for emitted code. |
| Machine.BranchDecides | src/lua/lcode.c:539-583 | The same as a statement about the two bounded runs of the code. |
| CodeSem.RunIsVM | src/lua/lvm.c:407-585 | A run without pending jumps is a number of steps of the machine, to the same place with the same registers, or to the same error. |
| CodeSem.RunSim | src/lua/lcode.c:150-166 | A run sees a pending jump only as an exit, so patching or linking pending jumps changes no run up to them. |
| CodeSem.Split | src/lua/lcode.c:789-801 | A run to the end is a run to any point before it, carried on from there: the meaning of code composes when more is emitted. |
| ExprAndOr.AndOr | src/lua/lcode.c:737-781 | `l and r`, `l or r`: with the first operand's exits joined to the second's, the second operand's descriptor stands for the whole expression, evaluated with short circuit. |
| Operators.FalseForNilTruth | src/lua/lparser.c:965-972 | Replacing the final nil of a condition by false changes neither its truth nor its errors. |
| Operators.FoldedPair | src/lua/lcode.c:627-650 | A folded constant stands for the value the operation has at run time, although no code is emitted for it. Division and modulo by zero and results that are not numbers are not folded. |
| Operators.Infix | src/lua/lcode.c:710-734 | After the operator is read the first operand is a branch (`and`, `or`), a value on top of the stack (`..`), or an operand within reach (the others), and still stands for the same expression. |
| Operators.Posfix | src/lua/lcode.c:737-781 | The descriptor and code of both operands become those of the whole expression, on every input; besides the value itself no register stays in use. |
| Operators.Prefix | src/lua/lcode.c:689-707 | The same for `not`, `-` and `#`, folded or computed. |
| Operators.CodeArith | src/lua/lcode.c:653-670 | The result stands for the arithmetic expression on all inputs, whether folded or computed from registers and constants, with its operands in the order of the text. |
| Operators.CodeComp | src/lua/lcode.c:673-686 | The result stands for the comparison as a test whose jump is still open, also where `>`, `>=` and `~=` are expressed by the other three tests. |
| Operators.CodeConcat | src/lua/lcode.c:753-766 | The result stands for the concatenation: operands in consecutive registers, and a concatenation on the right is extended by its left operand instead of emitting another instruction. |
| ExprConcat.MergeConcat | src/lua/lcode.c:753-766 | Lowering the first register of the CONCAT that ends the right operand makes it compute `l .. r` on every input, errors included. |
| Concat.VConcat | src/lua/lvm.c:282-314 | luaV_concat, on the stack itself: joining as many strings as possible in one pass, converting numbers in place and calling metamethods in between, it leaves in the first register what concatenating two operands at a time from the right gives, fails exactly when that does, and touches no register outside its operands. Of strings and numbers, empty ones included, the result is all their texts in a row, and it fails exactly when that is not shorter than 2^64 - 3. |
| Concat.AllTexts | src/lua/lvm.c:282-314 | Two at a time from the right, strings and numbers give all their texts in a row, unless that is too long. |
| Concat.MeetsText | src/lua/lvm.c:285-290 | A value that is neither string nor number meets the joined text of all that follows: the metamethod gets the two in that order, and what it makes of them takes their place. |
| Concat.LastTwo | src/lua/lvm.c:285-288 | Two last operands without texts for both give way to what the metamethod makes of them, the left one first. |
| Concat.MachineConcat | src/lua/lvm.c:534-540 | OP_CONCAT of the compiler's machine computes what VConcat leaves, for strings and numbers. |
| Concat.Collect | src/lua/lvm.c:291-310 | One pass over the strings at the end: they give way to their joined text, in the place of the first, and what is left has the meaning of the whole; or the text would be too long, and so it is for the operands two at a time. |
| Operators.FreeOperands | src/lua/lcode.c:653-670 | Whatever the order of the operand registers, the first free register is again what it was before the operands; freeing in the wrong order would break the stack discipline. |
| Lcode.FuncState.GoIfTrue | src/lua/lcode.c:539-560 | The code so far becomes a branch: on every input it falls through, or jumps to here, when the value is true, and leaves through the returned list when it is false. |
| Lcode.FuncState.GoIfFalse | src/lua/lcode.c:563-583 | The same with the truth values exchanged. |
| Lcode.FuncState.JumpOnCond | src/lua/lcode.c:524-536 | Adds a test and a jump that leave when the value has the given truth; every earlier exit still carries its value. A negation emitted last is turned into the test. |
| Lcode.FuncState.CodeNot | src/lua/lcode.c:586-618 | The result stands for the negation of the expression on all inputs, with the two exit lists exchanged. |
| Lcode.FuncState.Exp2Reg | src/lua/lcode.c:390-411 | On every way out of the expression, exits included, its value is in reg and every other register in use is kept; no exit is left open. |
| Lcode.FuncState.Discharge2Reg | src/lua/lcode.c:343-379 | When the code falls through, the value is in reg, whatever kind of descriptor it was; a comparison is left as it is. |
| Lcode.FuncState.DischargeVars | src/lua/lcode.c:304-334 | The descriptor becomes a register or an instruction with an open target and stands for the same expression; anything else is left alone. |
| Lcode.FuncState.Exp2NextReg | src/lua/lcode.c:414-419 | The value is in the register that was the first free one, which is now in use. |
| Lcode.FuncState.Exp2AnyReg | src/lua/lcode.c:422-433 | The value is in some register, a local or the first free one, and no exit is left. |
| Lcode.FuncState.Exp2Val | src/lua/lcode.c:436-441 | No exit is left, and the descriptor, no longer a variable, stands for the same expression. |
| Lcode.FuncState.Exp2RK | src/lua/lcode.c:444-469 | The operand denotes the value of the expression: a register, or one of the first 256 constants, encoded as 256 to 511. |
| Lcode.FuncState.LoadNil | src/lua/lcode.c:35-56 | Three cases: nothing in a fresh function, a LOADNIL widened when no jump leads behind it, or a new one. |
| Lcode.FuncState.NeedValue | src/lua/lcode.c:122-128 | True exactly when some jump of the list does not carry a value. |
| Lcode.FuncState.PatchListAux | src/lua/lcode.c:150-160 | Exactly the jumps of the list change: those with a value go to one target with their TESTSET given the register, the others to the other. |
| Lcode.FuncState.RemoveValues | src/lua/lcode.c:144-147 | Every TESTSET that controls a jump of the list becomes a TEST, and nothing else changes. |
| Lcode.FuncState.Concat | src/lua/lcode.c:185-196 | The result heads an acyclic list of the elements of both lists, in order. |
| Lcode.FuncState.PatchToHere | src/lua/lcode.c:179-182 | The list joins the jumps that wait for the next instruction. |
| Lcode.FuncState.Emit | src/lua/lcode.c:789-801 | The jumps that waited go to the new instruction, it is appended, and nothing else changes. Failures are explained. |
| Lcode.FuncState.FixJump | src/lua/lcode.c:80-87 | Fine exactly when the offset fits into sBx. |
| Lcode.FuncState.CheckStack | src/lua/lcode.c:199-206 | Fails exactly when the new size is larger than before and 250 or more; otherwise records the largest size. |
| Lcode.FuncState.AddK | src/lua/lcode.c:229-247 | The index holds the constant; an equal one is reused; earlier constants keep their index. Fails exactly when a new constant would be one more than 262143. |
| JumpLists.LinkChain | src/lua/lcode.c:185-196 | Two disjoint jump lists become one acyclic list whose elements are those of both, in order. |
| Lparser.LexState.Subexpr | src/lua/lparser.c:828-853 | Reads the longest expression whose operators bind tighter than limit: the tree it denotes spells exactly the tokens read, every operator in it has the operands its priorities give it, the next operator is one that binds no tighter, and the emitted code stands for that tree. Failures are explained. |
| Lparser.LexState.SimpleExp | src/lua/lparser.c:727-775 | The same for constants, names and parentheses; a token that would carry on a primary expression fails. |
| Lparser.LexState.PrefixExp | src/lua/lparser.c:667-687 | Names and parentheses; the closing parenthesis settles the value. |
| Lparser.LexState.SingleVar | src/lua/lparser.c:248-253 | The name becomes the local, upvalue or global that the scope makes of it. |
| Lparser.LexState.EnterLevel | src/lua/lparser.c:276-279 | Fails exactly beyond the limit of nested levels. |
| Parsing.Climb | src/lua/lparser.c:828-853 | Completeness of precedence climbing: a grouped tree that the tokens spell, followed by something that cannot extend it, is read whole. |
| Parsing.Unambiguous | src/lua/lparser.c:810-820 | The priority table leaves no choice: a token sequence has at most one grouped tree. |
| Meaning.TwoOperators | src/lua/lparser.c:810-853 | `a f b g c`, with any operands without operators outside parentheses: the one grouped tree gives b to the operator that binds tighter in the manual's order, of equal ones to the left, but to the right for `..` and `^`; the parser reads that tree. |
| Meaning.PrefixThenOperator | src/lua/lparser.c:821-843 | `u a f b`: a prefix operator binds tighter than every binary operator but `^`. |
| Meaning.OperatorThenPrefix | src/lua/lparser.c:828-853 | `a f u b`: after a binary operator, whichever it is, a prefix operator takes the operand behind it. |
| Meaning.TableIsManual | src/lua/lparser.c:810-821 | For every tree: it is grouped by the priority table exactly when, wherever two operators meet, the operand between them belongs to the one that takes it by the manual's order. |
| Meaning.OneToken | src/lua/lparser.c:727-775 | A constant or a name: the token alone is a text, and its value is the constant, the argument, the upvalue or the global. |
| GcProgram.Run | src/lua/lgc.c:556-607 | Any sequence of collector steps, full collections and actions of the program: afterwards every reachable object is still allocated and the invariant holds; the heaps in between form a Trace. |
| GcProgram.Perform | src/lua/lgc.h:86-97 | One action in any phase keeps the invariant and has exactly its effect (Effect): the object, variable, stack or root it names changes as stated, and everything else that is live looks as it did; the collector's actions show nothing. Variables keep their values unless assigned, an assignment is seen through every closure sharing the variable, and what the program does never touches garbage, except what it brings back. |
| GcMeaning.ReachNamed | src/lua/lgc.c:277-320 | The program can name exactly the reachable objects. |
| GcMeaning.ReachLeast | src/lua/lgc.c:500-512 | The reachable objects are the least set that has the main thread, the running thread, the registry and the metatables of basic types, and all that its objects refer to. |
| GcMeaning.PointsTo | src/lua/lgc.c:158-270 | What each kind of object refers to, place by place; of a thread only the slots in use. |
| GcMeaning.FixedForever | src/lua/llex.c:64-70 | Over any run a fixed string is never freed and stays fixed. |
| GcInvisible.SameOutcome | src/lua/lgc.c:556-658 | The collector is invisible: two runs of the same program from the same heap, with steps and full collections interleaved in any two ways, end in heaps where every operand names something of the same kind, the same strings, as many values, and two operands name one object in the one exactly when they do in the other. The program must not raise the top over slots that still hold an object, since the collector clears those. |
| GcInvisible.Invisible | src/lua/lgc.c:556-658 | The same as a simulation: heaps that differ in the names of objects only stay so, whatever either side's collector does. |
| GcInvisible.ActionRel | src/lua/lfunc.c:53-79 | Every action of the program takes heaps that differ in names only to such heaps; new strings, upvalues and objects correspond, although one side may bring an old one back where the other creates it. |
| GcRename.Backwards | src/lua/lgc.c:556-607 | Looking alike is symmetric: a renaming can be turned around. |
| GcCycle.GarbageFreed | src/lua/lgc.c:556-607 | An incremental collection from GCSpause to its end, with any actions of the program in between, frees every object that was unreachable and not fixed when it began, provided no action brought garbage back: by making an equal string, by capturing the slot of its open upvalue, or by raising the top over a slot that holds it. |
| GcCycle.CycleLeaves | src/lua/lgc.c:556-607 | In general: for any set A that has the roots, what its objects refer to, new objects and what was brought back, only A and the fixed objects are left at the end. |
| GcProgram.TouchedReach | src/lua/lgc.c:556-607 | An action that brings nothing back touches, of the objects there are, exactly the reachable ones. |
| GcStep.ReachableKept | src/lua/lgc.c:556-607 | Given what SingleStep ensures, a collector step changes neither which objects are reachable nor which are fixed. |
| GcStep.CycleKeeps | src/lua/lgc.c:525-607 | Given what SingleStep ensures, from the flip on exactly the reachable and the fixed objects are due to survive, and every later step keeps it so. |
| Lgc.GlobalState.SingleStep | src/lua/lgc.c:556-607 | From any state it keeps the invariant, frees only unreachable objects, changes no reference and no content, and does in each phase what that phase is for (StepResult). |
| Lgc.GlobalState.FullGC | src/lua/lgc.c:635-658 | Afterwards exactly the reachable and the fixed objects are allocated, unchanged, from whatever phase it started. |
| Lgc.GlobalState.WholeCycle | src/lua/lapi.c:938-952 | Steps taken from GCSpause until the collector is back there come to an end, and leave exactly what a full collection leaves. |
| Lgc.GlobalState.Atomic | src/lua/lgc.c:525-553 | With everything marked and the white flipped: all live objects are in the scope, so whatever lies outside is dead, and no live object refers to a dead one. |
| Lgc.GlobalState.RemarkUpvals | src/lua/lgc.c:515-522 | The values of all marked open upvalues are marked, although stack writes have no barrier. |
| Lgc.GlobalState.PropagateMark | src/lua/lgc.c:277-320 | One gray object is visited; the tri-colour invariant is kept and less marking is left to do. |
| Lgc.GlobalState.TraverseStack | src/lua/lgc.c:256-270 | All that the thread refers to is marked, what lay above its top is gone, and nothing the program can see has changed. |
| Lgc.GlobalState.ReallyMark | src/lua/lgc.c:69-112 | A white object becomes marked, and for userdata and upvalues what they refer to; the tri-colour invariant is kept. |
| Lgc.GlobalState.SweepBucket | src/lua/lgc.c:407-428 | What a sweep must keep stays the same; of this bucket only that is left, in the current white; the other buckets are not touched. |
| Lgc.GlobalState.SweepOpen | src/lua/lgc.c:407-428 | The same for the open upvalues of a thread. |
| Lgc.GlobalState.SweepRoot | src/lua/lgc.c:407-428 | What a sweep must keep stays the same, everything before the sweep position is clean, and a positive count makes progress until the end of rootgc. |
| Lgc.GlobalState.CloseAll | src/lua/lgc.c:378-400 | Before a thread is freed its remaining upvalues are closed and become the first, already swept, objects of rootgc; what a sweep must keep stays the same. |
| Lgc.GlobalState.Store | src/lua/lgc.h:86-97 | A reference may be stored into an object of any colour in any phase: the invariant is kept, no live object dies, and nothing is marked but what follows from the stored value. |
| Lgc.GlobalState.StoreForward | src/lua/lgc.c:661-671 | Storing a white object in a black one that is no table, with its barrier, in any phase: the store is done, the invariant kept, and nothing is marked but what follows from the stored object. |
| Lgc.GlobalState.StoreBack | src/lua/lgc.c:674-682 | The same for tables, with the other barrier. |
| Lgc.GlobalState.NewString | src/lua/lstring.c:75-93 | The live string with that text; an equal one already there is reused, even a dead one, which lives again. |
| Lgc.GlobalState.Resize | src/lua/lstring.c:22-47 | Outside the sweep of the string table, whose position it would upset, the table gets the new size with every string in the bucket of its hash; nothing else changes. |
| Lgc.GlobalState.FindUpval | src/lua/lfunc.c:53-79 | The one open upvalue of a stack slot: found, brought back if dead, or created in its place in the sorted list. |
| Lgc.GlobalState.CloseUpvals | src/lua/lfunc.c:96-112 | Exactly the upvalues of the thread at or above the level are closed, and every captured variable of any thread keeps the value it had. |
| Lgc.GlobalState.LinkUpval | src/lua/lgc.c:694-709 | The upvalue just closed takes a colour that keeps the invariant in every phase. |
| GcProgram.CreateClosure | src/lua/lvm.c:723-742 | On top of the stack, in the slot that was the first above it, there is a new closure with the given references and, for each captured slot in use, the one open upvalue of that slot, created where there was none; with no collector step in between, and everything else, the slots below included, as it was. |
| GcMeaning.ClosureNamed | src/lua/lvm.c:723-742 | In the program's own terms: the top slot names a new closure, its fields name what the operands named, and its captured variables name what is in their slots. |
| GcMeaning.CreateNamed | src/lua/lgc.c:686-692 | After an allocation the top slot names a new object of that kind, and its fields, in order, name what the operands named. |
| GcMeaning.PushNamed | src/lua/lvm.c:738 | After a push the first slot above the old top names the value, and every slot below names what it named. |
| GcMeaning.SetFieldNamed | src/lua/lgc.h:86-97 | After an assignment to a field every operand that leads through it names the new value, and the other fields of the object name what they named. |
| GcProgram.StoreUpval | src/lua/lvm.c:451-456 | Afterwards the upvalue, open or closed, has the value, in its stack slot if that is where it lives; no other variable and no other object changes. |
| Ltable.Table.RawSet | src/lua/lapi.c:683-693 | The table is the old map with k bound to v, and nothing else changed, whether or not it was rehashed. It fails for nil and NaN, leaving the table as it was, or when the table overflows, which a table of fewer than 2^26 entries never does; then the array part may have grown, and the map is still the same exactly when no key of the hash part lies in the new part of it. |
| Ltable.Table.Set | src/lua/ltable.c:495-506 | A slot for k in a table that is still the same map; the failures as above, and none while there is room. |
| Ltable.Table.NewKey | src/lua/ltable.c:399-429 | The three collision cases and the rehash: each yields a slot for the new key in the same map. |
| Ltable.Table.MoveColliding | src/lua/ltable.c:399-429 | A node out of its main position moves to the free slot, its chain stays whole, and the new key takes its place. |
| Ltable.Table.Rehash | src/lua/ltable.c:333-349 | The same map, room for the new key, and an array part of the best size. |
| Ltable.Table.Resize | src/lua/ltable.c:297-324 | Any new sizes that hold the entries: the same map, with exactly that array size. Fails exactly when the hash part would exceed its limit; then only the array part has grown. |
| TableRehash.AbandonedMap | src/lua/ltable.c:297-324 | After a rehash given up half way the table is the same map if and only if no key with a value is hidden behind the larger array part. |
| Ltable.Table.ComputeSizes | src/lua/ltable.c:189-208 | The largest power of two n such that more than half of 1..n is in use (0 if none), and how many of the keys lie in 1..n. |
| TableRehash.IndicesInUse | src/lua/ltable.c:211-260 | The keys that a rehash counts are exactly the integers from 1 to 2^26 that have a value. |
| TableRehash.SmallFits | src/lua/ltable.c:279-286 | A table of fewer than 2^26 entries never overflows. |
| Ltable.Table.NumUseArray | src/lua/ltable.c:222-244 | For each power of two the exact number of integer keys in its slice of the array part. |
| Ltable.Table.NumUseHash | src/lua/ltable.c:247-260 | The same for the hash part, and the number of live entries there. |
| Ltable.Table.Get | src/lua/ltable.c:469-492 | Finds the slot of k, in either part, exactly when k has one. |
| Ltable.Table.FindNode | src/lua/ltable.c:469-492 | The walk along the chain from the main position finds the key's node if there is one, and ends otherwise. |
| Ltable.Table.Next | src/lua/ltable.c:162-179 | The first non-nil entry behind that of key, with its key and value; an error exactly for a key without an index. |
| Ltable.Table.Traverse | src/lua/ltable.c:162-179 | From nil to the end, with any assignments to existing fields after each step, also of nil: next never fails, meets no key twice, meets each key while it has a value, and meets every key that has a value throughout. |
| Ltable.Table.GetN | src/lua/ltable.c:561-577 | A border: 0 or an index with a value, with none at the next index. |
| Ltable.Table.UnboundSearch | src/lua/ltable.c:533-554 | The same for the search in the hash part, also when doubling overflows and the search turns linear. |
| TableModel.InDegree | src/lua/ltable.c:399-429 | No two nodes link to the same node: chains do not merge. |
| TableRehash.Acyclic | src/lua/ltable.c:399-429 | No walk along a chain comes back to where it started. |
| TableRehash.Reached | src/lua/ltable.c:8-18 | Brent's variation, as the file's introduction promises: every key is reached from its main position, and if it is displaced, a key that belongs there holds that position. |

## Left out

Of the compiler:

- Statements.CompileReturn: the forms of `retstat` that return no value, several values, or a call (tail call) are not modelled, nor a `;` after it; other statements neither.
- Statements.CompileIf: only a single test whose block is one `return`; no `elseif`, `else` or longer blocks.
- Statements.TestThenBlock: the block is one `return`.
- Statements.IfStat: likewise.
- Statements.RetOne: a single value.
- Statements.Chunk: one `return`, no list of statements.
- Lparser.LexState.SimpleExp: calls, indexing, constructors, functions and `...` are recognised and fail as not modelled.
- Lparser.LexState.SingleVar: what a name refers to is a parameter of the parser (Scope), so the search through enclosing functions is not modelled.
- Lcode.FuncState.Emit: line information, and the limit on code size, which lies far above the limit on jumps.
- Lcode.FuncState.DischargeVars: indexed variables, calls and varargs.
- Statements.ReachesReturn: a RETURN of all values up to the top (B = 0), and the closing of upvalues; the functions compiled here have neither.
- CodeSem.RunIsVM: the machine has the opcodes of expressions, tests, jumps and returns only.
- Concat.VConcat: the garbage collection after it, and that a new string may raise a memory error.
- `luaK_storevar`, `luaK_self`, `luaK_indexed`, `luaK_setlist`, `luaK_setreturns`: assignments, methods, indexing, constructors and multiple results.
- Operators.Prefix: negating a constant always folds; the source would not fold a NaN, which no numeral is.
- Lcode.FuncState.AddK: numbers are opaque and equal to themselves only, so that 0 and -0 have two constants, where the source has one.
- Strings are opaque to the compiler. Arithmetic on numbers is the same for the compiler and the machine (FoldSound), as the source uses the same macros for both.
- Arithmetic, comparison, concatenation, globals and upvalues are parameters of the machine without side effects: a metamethod that changes a variable in the middle of an expression is not modelled.

Of the collector:

- Lgc.GlobalState.Atomic: weak tables are not cleared, and finalizers are not separated or called; hence no `GCTM`, and GCSfinalize is one step.
- Lgc.GlobalState.SingleStep: allocation debt, thresholds and step sizes (`luaC_step`) do not appear; SingleStep is proved for any choice of when to call it.
- Lgc.GlobalState.TraverseStack: the stack size is not reduced (`checkstacksizes`), and call frames have one common top.
- Lgc.GlobalState.CheckSizes: only the string table shrinks; there is no parser buffer.
- Lgc.GlobalState.PropagateMark: weak tables, which stay gray, are missing.
- Lgc.GlobalState.Store: the references of an object are a sequence; dead keys of tables (`removeentry`) do not appear.
- GcProgram.Perform: the program's actions are those that store references; operands are found by following references from the roots. Captured slots above the top are ignored.
- GcInvisible.SameOutcome: addresses, and the time that collection takes, cannot be seen in the model.
- GcCycle.GarbageFreed: the end of the cycle is a hypothesis, as a program may go on creating work; what is brought back in between, and what it refers to, may survive.
- Freeing all objects at the end of a state (`luaC_freeall`).

Of tables:

- The introduction of `ltable.c` (lines 12-13) says that at least half of the array part is in use; the code (lines 189-208) demands more than half, and so does Ltable.Table.ComputeSizes.
- Ltable.Table.ResizeArray: only for growth, as its callers use it.
- Ltable.Table.Get: the variants for strings and numbers share one walk; int keys are unbounded, with the source's limits where it computes with them.
- `luaH_new` with more than 2^26 array slots; metatables, flags and memory errors.

The virtual machine's calls, closures and loops, the other libraries, and the rest of the
repository (message matcher, circular buffers, serialization, the sandbox itself) are not part of this model.
