# go-lispico, modelled and verified

go-lispico is an embeddable Lisp. A form is evaluated in one of two ways: a tree walk over the
form, or compilation to packed bytecode that a stack machine runs. Around the two evaluators stand
the persistent vector and map, the root environment with its storage cells and its registration
journal, the compiled-chunk cache, the evaluation budget and its meters, the reader, the constant
pool and the layer that installs the standard library name by name on first use.

The project models each of these and proves what the rest of the program relies on.

- Evaluation. `Forms` and `TreeWalker` are the forms and their walk; `Machine` is a one-frame
  machine over decoded instructions; `CodeGen` is the code of a form; `CompilerCorrect` and
  `Adequacy` prove that walk and machine end alike, `Choices` what a test decides, and `Functions`
  what a call of a function does. `Bytecode` is the packed chunk, its validation
  and its decoding; `Lowering` says what compiling emits, closures and captures included;
  `Emission`, `Finishing`, `CompiledSlots`, `Chunks` and `Sizes` prove what the finished chunks are;
  `Compiler` is the emitter itself, which appends, leaves jumps open and patches them. `StackVM` is
  the machine with its one value stack, boxes, absolute handlers and freeze records, for chunks with
  closures as well. `Fusion` and `BoxedFusion` compare a fused instruction with the four it stands
  for, `BoundSlots` proves that compiled code boxes every captured slot before it reads it, and
  `Closures` what the chunk of a nested function does and which variable a captured name is.
- Values. `Bitmaps`, `Hamt` and `HashMaps` are the map in its three forms, `Vectors` the vector,
  `Interning` and `Literals` the fingerprinted constant pool, `Syntax`, `Reader` and `RoundTrip` the
  reader against the printer, `Documents` and `Grammar` the reader against a grammar.
- Bindings. `Cells`, `Rollback`, `RootEnv` and `Caches` are the root environment, a registration and
  its abort, and the inline and call caches that read cells by version; `PlainBindings` is the same
  environment as two plain maps.
- Accounting. `CacheBudget` and `LruStripe` are the chunk cache; `Budget`, `Leases` and `Settlement`
  the counters, the leases drawn on a shared meter, and the settling of retained bindings.
- Laziness. `LazyLayer` is the materializer as a state machine over its atomic steps.

Code that changes state in the original is a class or a loop here and is proved against a function
of the old state; atomic counters, which several goroutines move at once, are state machines with
one step per atomic operation, and their theorems are over every interleaving. Nothing was executed.

`Host` stands for calls into functions the model does not look inside: `apply` for a called value
and `native` for the arithmetic opcodes, both arbitrary.

A call resolved through the Lisp-2 fallback to the value cell must not be cached, and the call cache
does not cache it; `Caches.FallbackNotCacheable` shows why.

## Findings

Properties that do not hold of the program, each with an input and with the exact condition.

- Fewer than 2^24 instructions do not make a chunk pass validation: fused instructions put two
  constants each into the pool, and the index of a later symbol is cut to 24 bits
  (`Overflow.FewInstructionsNotEnough`). The input holds 2^23 sums: under the default limit of
  64 MiB on allocations (runtime/engine.go:236) it takes raised limits or a form built by the host.
  Packed code means the form exactly when `Chunks.Fits`
  holds, which looks at the operands before they are packed (`Chunks.ChunkMeans`), and a bound on
  the size of the form implies it (`Sizes.SmallFits`).
- A fused instruction is not the same as the four it replaces on every stack: on a captured slot
  whose box is not bound yet, the cell instruction refuses and the fused operand reads the plain
  value. `BoxedFusion.RunBoth` has the exact condition, and `BoxedFusion.PlainSlotDiffers` an input:
  a chunk made by hand, which validation accepts. Compiled code never gets there: it boxes every
  captured slot first (`BoundSlots.CompiledBound`), so on it the two end alike
  (`BoundSlots.FusedAlike`). On decoded instructions they agree exactly
  when the opcode is the operator's own (`Fusion.FusesExactly`).
- A symbol without letters, which the reader never makes but a host may, resolves to the slot a loop
  is initialising, and a function that captures it there is refused at run time
  (`BoundSlots.EmptyNameUnbound`).
- `Set` on a map whose trie a `Dissoc` has emptied writes to a nil map
  (`HashMaps.EmptiedTrieRefusesSet`); on every other map it stores (`HashMaps.HashMap.Set`).
- A refused charge does not close the budget for good whatever the number of concurrent chargers:
  enough adds onto the wrapped counter carry it past zero before one of them pins it
  (`Budget.Breach`). It does exactly when all chargers but one, each adding at most the ceiling,
  stay within 2^63 (`Budget.ClosesExactly`); the total shown to readers is true exactly when all of
  them do (`Budget.PublishedExact`).
- A constant may be replaced by another one: 0.0 and -0.0 are equal to the pool
  (`Interning.ReuseExact`).
- A printed value does not always read back: `RoundTrip.ReadPrinted` says exactly when.

## Model

| member | source | states |
|---|---|---|
| Adequacy.SameMeaning | core/eval.go:761-820 | walking a form and running its code yield the same value or the same uncaught error with the same root bindings, and one ends if and only if the other does |
| Adequacy.NeverBad | core/vm/vm.go:927-1396 | code emitted for a form never underflows the stack, misses a slot or misses its freeze record, for any number of steps |
| Adequacy.Deterministic | core/vm/vm.go:927-1396 | two runs of the same code from the same state that end, end in the same result |
| Choices.IfChooses | core/eval.go:1864-1884 | if takes its other branch, or yields nil, on nil and false and on no other value; what stops the test stops the form |
| Choices.WhenIsIf | core/eval.go:1906-1925 | when is an if around its body |
| Choices.CondIsIfs | core/eval.go:1886-1904 | cond is one if for each clause, the else clause included |
| Choices.AndStops | core/eval.go:2506-2522 | and yields its first nil or false argument, or the last one |
| Choices.OrStops | core/eval.go:2524-2540 | or yields its first argument that is neither nil nor false, or the last one |
| Choices.NotIsIf | core/eval.go:2542-2551 | not is an if between the two booleans |
| Choices.JumpsOnFalse | core/vm/vm.go:1194-1201 | the conditional jump takes its operand and is made exactly on nil and false |
| Choices.CompiledChoice | core/compiler/compiler.go:334-359 | compiled and run, an if over any value ends exactly as the branch the value chooses |
| Choices.NativeNames | core/vm/vm.go:1704-1754 | native operators and their names stand one to one |
| Functions.CallMeaning | core/vm/vm.go:2190-2230 | the code of a function that captures nothing, run on its arguments, returns or throws, and leaves the root, exactly as walking its body with the parameters bound to them in order, and one ends if and only if the other does |
| Functions.CallNeverBad | core/vm/vm.go:927-1396 | such a call never underflows the stack, misses a slot or misses its freeze record |
| Functions.BodyIsLast | core/compiler/compiler.go:409-415 | compiling a body's forms one after another, without dropping their values, yields what the last one yields |
| CompilerCorrect.Correct | core/compiler/compiler.go:225-332 | from any frame that holds a form's scopes, its code lands where the walk ends: the value pushed on the untouched stack, the error at the right handler, or the loop rebound, with slots and root bindings those of the walk's environment |
| CompilerCorrect.CorrectIf | core/compiler/compiler.go:334-359 | both jumps of if lead to the branch the walk takes |
| CompilerCorrect.CorrectClauses | core/compiler/compiler.go:1124-1163 | cond runs the body of the first clause whose test is truthy, or yields nil |
| CompilerCorrect.CorrectAnd | core/compiler/compiler.go:1169-1194 | and stops at the first falsy value and yields it, for any number of arguments |
| CompilerCorrect.CorrectOr | core/compiler/compiler.go:1196-1222 | or stops at the first truthy value and yields it, for any number of arguments |
| CompilerCorrect.CorrectLet | core/compiler/compiler.go:450-483 | let binds in sequence, repeated names included, and leaves the scope outside as it was |
| CompilerCorrect.CorrectAssign | core/compiler/compiler.go:520-551 | set! rebinds the binding the walk finds, slot or root, and fails before the right-hand side when there is none |
| CompilerCorrect.CorrectTry | core/compiler/compiler.go:661-715 | an error of the body, nested calls included, reaches the handler with the stack and freeze records it had on entry; handlers end with their body |
| CompilerCorrect.CorrectLoop | core/compiler/compiler.go:574-623 | a loop's initializers see the outer scope, and each round runs on the rebound slots |
| CompilerCorrect.CorrectRecur | core/compiler/compiler.go:625-659 | recur stores all arguments at once, leaves the try scopes entered since the loop, and goes back to its start |
| CompilerCorrect.CorrectCall | core/compiler/compiler.go:731-764 | head, then arguments left to right, then the call; an error stops at the part that raised it |
| CompilerCorrect.CorrectUnfused | core/compiler/compiler.go:766-793 | a native call resolves its operator before its arguments, and runs the opcode only if that binding is canonical |
| CompilerCorrect.CorrectFused | core/compiler/compiler.go:800-824 | a fused call does what walking the call does |
| Fusion.FusedIsUnfused | core/vm/vm.go:1489-1534 | from every state of the one-frame machine the fused instruction and the four it stands for deliver the same value, call the same function with the same arguments, or fail alike |
| Fusion.FusesExactly | core/vm/vm.go:1400-1433 | they do so in all states if and only if the name is the opcode's own operator |
| BoxedFusion.RunBoth | core/vm/vm.go:1536-1554 | whatever else the two chunks hold, closures included: on the machine's own stack the four words, through cells where the slot is captured, and the fused word end in the same result and state if and only if the operator is unresolved or no operand is a captured slot still unboxed; the fused word never breaks, and the four break exactly there |
| BoxedFusion.RunFour | core/vm/vm.go:997-1006 | in any chunk the four words stop at the first operand whose cell is not bound, and otherwise end as the one-frame machine does |
| BoxedFusion.PlainSlotDiffers | core/vm/vm.go:1542-1554 | a chunk made by hand that validation accepts, with its captured slot 0 still plain: the four words break and the fused word does not |
| BoundSlots.CompiledBound | core/compiler/compiler.go:875-966 | in the chunk of every form that fits, and of every function nested in it, each captured slot is boxed on every way to a cell instruction, a fused operand or a closure that reads it |
| BoundSlots.LinkedCapture | core/compiler/compiler.go:917-936 | capturing a name, through any number of functions, leaves each function's captures naming slots that are in scope in the one around it |
| BoundSlots.Binds | core/compiler/compiler.go:225-332 | the code of any form, compiled anywhere the slots in scope are boxed, reads only boxed slots on all its ways and leaves them boxed |
| BoundSlots.BindsInits | core/compiler/compiler.go:589-606 | a loop's initialisers run before its slots have names, and bind all of them |
| BoundSlots.BackTyped | core/compiler/compiler.go:641-659 | recur stores into bound slots, leaves the handlers it passes, and jumps back to a place that takes no more for bound |
| BoundSlots.ClosureBound | core/compiler/compiler.go:400-430 | the function's own chunk boxes its captured slots first, and the closure over it is made where every slot it captures is boxed |
| BoundSlots.EmptyNameUnbound | core/compiler/compiler.go:596-606 | a loop whose initialiser captures the symbol without letters reads its own slot before it is boxed |
| BoundSlots.Enter | core/vm/vm.go:2348-2361 | a frame of compiled code, entered with its arguments and its captures, runs as its words say: no instruction is refused for a slot without its box |
| BoundSlots.FusedAlike | core/vm/vm.go:1536-1554 | on compiled code the fused word and the four it stands for end in the same result and state, and neither breaks |
| Closures.FunctionMeans | core/compiler/compiler.go:400-430 | wherever a function stands, if it captures nothing its chunk decodes to its body's code, with the parameters in the first slots in order, if and only if its instructions fit |
| Closures.CallMeaning | core/vm/vm.go:2190-2230 | that chunk's words, run on the arguments, end exactly as the walk of the body does |
| Closures.CallFunction | core/vm/vm.go:2190-2230 | the machine's own frame of such a function, above whatever lies on the stack, never breaks and ends in what the walk ends in and nothing else |
| Closures.CapturedCell | core/vm/vm.go:1330-1348 | the cell a function has for a captured name, through any number of functions it was handed, is that of the slot in which the nearest enclosing function that binds the name holds it |
| Closures.CaptureReads | core/compiler/compiler.go:917-936 | the instruction emitted for a name of an enclosing function reads or writes the cell of that very variable |
| Closures.RecurStores | core/compiler/compiler.go:641-652 | a recur gives a slot that a function captured before it a fresh cell, writes through the cell of one captured only after it, and stores into one never captured |
| Closures.ClosureOver | core/compiler/compiler.go:400-430 | the cells a closure is made with are those of the variables its body names |
| Bytecode.EncodeExact | core/vm/chunk.go:12-23 | an operand survives packing if and only if it is below 2^24 |
| Bytecode.Validate | core/vm/chunk.go:376-488 | accepts exactly the chunk trees whose every instruction is in range and whose last instruction transfers control |
| Bytecode.ValidMeans | core/vm/chunk.go:376-488 | every word of a validated chunk decodes but the closure and capture words, and a chunk without those decodes whole |
| Bytecode.WordsMean | core/vm/vm.go:927-1396 | running the words of a chunk that decodes to a program is running the program |
| Bytecode.NeverOutside | core/vm/vm.go:927-1396 | no run of a validated chunk, closures included, leaves its code, through jumps and handlers included, so fetching needs no bounds check |
| Bytecode.TrustedWord | core/vm/chunk.go:376-488 | a validated word goes wrong on stacks too short for it and on nothing else: no index of it is out of range |
| Bytecode.RefusedWord | core/vm/chunk.go:376-488 | a word whose index validation refuses runs in no state at all |
| Lowering.MaxStack | core/compiler/stack.go:19-40 | covers every reserved slot |
| Finishing.Compiles | core/compiler/compiler.go:141-223 | every form's code, closures included, keeps the functions around it in order, is in range at its place, and decodes to the form's code; captures are found in every function on the way out |
| Finishing.FinishedValid | core/compiler/compiler.go:940-966 | a finished function validates after the captured slots were rewritten to cells, if packing kept its instructions |
| Finishing.PackedStands | core/vm/chunk.go:12-23 | a packed instruction decodes to what it was emitted as if and only if its operand fits, or it was cut to an equal fused instruction |
| Finishing.FinishedMeans | core/compiler/compiler.go:940-966 | the same of a whole function |
| Emission.CaptureOk | core/compiler/compiler.go:913-936 | capturing a name gives every function on the way out a descriptor that leads to its slot, and marks the slot |
| CompiledSlots.FormSlots | core/compiler/compiler.go:867-873 | a form without closures reserves exactly its slots and captures none |
| Chunks.ChunksPass | core/vm/chunk.go:376-488 | the chunk tree of every form that fits passes validation |
| Chunks.ChunkMeans | core/compiler/compiler.go:141-223 | the chunk of a form without closures decodes to the form's program if and only if the form fits |
| Chunks.ChunkShaped | core/compiler/compiler.go:940-966 | in a finished chunk the captured slots, and only they, are reached through cells, and every slot is reserved |
| Chunks.ChunkSlots | core/compiler/compiler.go:940-966 | the finished chunk's slot count is the form's |
| Chunks.Evaluate | core/vm/vm.go:899-925 | compiling, validating and running a form never breaks; a run that ends within its budget shows exactly what walking shows, and one that does not is still under way on the one-frame machine too |
| Sizes.SmallFits | core/compiler/compiler.go:99-108 | a form of size below 2^21 fits, closures included |
| Overflow.FewInstructionsNotEnough | core/vm/chunk.go:12-23 | there is a form of fewer than 2^24 instructions whose chunk does not validate |
| Compiler.Emitter.Emit | core/compiler/compiler.go:99-108 | appends one packed instruction and says where |
| Compiler.Emitter.EmitJump | core/vm/chunk.go:322-325 | appends a jump with the open-jump placeholder |
| Compiler.Emitter.PatchJump | core/vm/chunk.go:333-337 | makes the open jump lead to the present end of the code and touches nothing else |
| Compiler.Emitter.PatchJumpTo | core/vm/chunk.go:368-374 | makes the instruction lead to the given address |
| Compiler.Emitter.EmitConst | core/compiler/compiler.go:136-139 | reuses an equal constant, or adds one |
| Compiler.Emitter.EmitBind | core/compiler/compiler.go:875-888 | stores and pops, and records the store as a binding one |
| Compiler.Emitter.EmitCapture | core/compiler/compiler.go:913-936 | captures along the enclosing functions, then accesses the capture |
| Compiler.Emitter.Compile | core/compiler/compiler.go:141-223 | emits exactly what `Lowering` says, or refuses exactly when it does |
| Compiler.Emitter.CompileIf | core/compiler/compiler.go:334-359 | both jumps patched once their targets are known |
| Compiler.Emitter.CompileWhen | core/compiler/compiler.go:553-572 | an empty body is refused; a false test yields nil |
| Compiler.Emitter.CompileNot | core/compiler/compiler.go:1105-1122 | the argument tested, and the opposite pushed |
| Compiler.Emitter.CompileAnd | core/compiler/compiler.go:1169-1194 | every open jump of and leads to its end |
| Compiler.Emitter.CompileOr | core/compiler/compiler.go:1196-1222 | every open jump of or leads to its end |
| Compiler.Emitter.CompileCond | core/compiler/compiler.go:1124-1163 | every clause's way out leads to the end of cond |
| Compiler.Emitter.CompileLet | core/compiler/compiler.go:450-483 | a slot reserved after each initializer; the scope restored at the end |
| Compiler.Emitter.CompileAssign | core/compiler/compiler.go:520-551 | slot, capture or root binding, checked before the right-hand side when it is the root's |
| Compiler.Emitter.CompileThrow | core/compiler/compiler.go:717-729 | the argument, then the throw |
| Compiler.Emitter.CompileTry | core/compiler/compiler.go:661-715 | the handler's address and the jump over it patched; the scope and try depth restored |
| Compiler.Emitter.CompileLoop | core/compiler/compiler.go:574-623 | slots reserved before the initializers; the loop's frame on top for its body only |
| Compiler.Emitter.CompileRecur | core/compiler/compiler.go:625-659 | refused outside a loop or with the wrong number of arguments |
| Compiler.Emitter.EmitStores | core/compiler/compiler.go:641-650 | the arguments of recur stored from the last slot down, captured ones as bindings |
| Compiler.Emitter.CompileCall | core/compiler/compiler.go:731-764 | a native operator no local shadows is compiled natively |
| Compiler.Emitter.CompileNativeOp | core/compiler/compiler.go:766-793 | fused when it can be; otherwise the operator frozen before the arguments |
| Compiler.Emitter.FuseNativeOp | core/compiler/compiler.go:800-843 | fuses exactly two operands that are slots or scalars; a scalar first operand stays in the pool when the second rules fusion out |
| Compiler.Emitter.CompileFn | core/compiler/compiler.go:386-430 | the body compiled as a function of its own, finished, and made a closure of the one around it |
| Compiler.Emitter.Finalize | core/compiler/compiler.go:940-966 | rewrites exactly the accesses of captured slots to cells |
| Compiler.Emitter.CompileDo | core/compiler/compiler.go:432-448 | every value but the last dropped; nil for no forms |
| Compiler.CompileForm | core/compiler/compiler.go:1440-1459 | the chunk of one top-level form |
| Compiler.ComputeMaxStack | core/compiler/stack.go:19-40 | the highest running height over the slots, and above every slot mentioned |
| StackVM.VM.ReserveLocals | core/vm/vm.go:620-632 | the frame's slots exist, nil unless given, and nothing lies above them |
| StackVM.VM.Throw | core/vm/vm.go:2162-2188 | unwinds operands and freeze records to the innermost handler, pops it and pushes the error; the slots keep their boxes |
| StackVM.VM.Store | core/vm/vm.go:985-1032 | a store reaches the value through the slot's own box, or binds a fresh box; no other slot changes |
| StackVM.VM.StepSlot | core/vm/vm.go:978-1032 | slot access is the one-frame machine's, except that a cell instruction on an unboxed slot is refused and changes nothing |
| StackVM.VM.StepCapture | core/vm/vm.go:1034-1050 | a captured variable is read and written through its own box, and no other box changes |
| StackVM.VM.StepClosure | core/vm/vm.go:1330-1348 | a closure is made of the boxes of the slots it captures and of the captures it passes on, and is refused over a slot without one |
| StackVM.VM.BoxCaptured | core/vm/vm.go:2348-2361 | on entry each captured parameter gets a box of its own, which holds its value |
| StackVM.VM.StepTry | core/vm/vm.go:2119-2188 | handlers are installed at absolute depths and read back as the one-frame machine has them |
| StackVM.VM.Call | core/vm/vm.go:2190-2230 | a call consumes the function and its arguments and delivers, or throws to a handler below them |
| StackVM.VM.DispatchNative | core/vm/vm.go:1400-1433 | the opcode runs when the record frozen at its argument base is its own; otherwise the frozen value is spliced under the arguments and called |
| StackVM.VM.ReadOperand | core/vm/vm.go:1542-1554 | a constant, or the slot's value through its box if it has one |
| StackVM.VM.DispatchFused | core/vm/vm.go:1489-1534 | the fused instruction, boxed operands included, does what the one-frame machine says |
| StackVM.VM.Step | core/vm/vm.go:927-1396 | in any chunk one instruction on the flat stack is one step of the meaning of its word, unless a slot is read as a cell before it is boxed; slots once boxed stay boxed |
| StackVM.VM.Run | core/vm/vm.go:927-1396 | in any chunk a whole run on the flat stack ends as the meaning of its words says, or stands at an instruction that needs a box where there is none and which that run reached too; where the slots are boxed in time it never stands there |
| Hamt.GetFinds | core/types.go:796-821 | lookup finds an entry if and only if the trie holds it |
| Hamt.AssocPuts | core/types.go:847-896 | assoc keeps the trie well formed, holds the new entry, drops only the old entry of the same key, and says whether the key was absent, collisions included |
| Hamt.DissocDrops | core/types.go:898-949 | dissoc drops exactly the key's entry, returns the same node when there is none, and leaves no empty child behind |
| Hamt.AssocIs | core/types.go:847-896 | the trie of a map with one entry more is that map's |
| Hamt.DissocIs | core/types.go:898-949 | the trie of a map without a key, or none when it was the last |
| Hamt.GetIs | core/types.go:796-821 | lookup is the map's |
| Hamt.RunMatches | core/types.go:847-949 | any sequence of assocs and dissocs, whatever the hash function, denotes the same map as the sequence of updates |
| HashMaps.KeyIdentity | core/types.go:681-711 | everything but lists, vectors and functions is hashable, and two values have one key exactly when they are equal |
| HashMaps.Order | core/types.go:1009-1019 | the order of keys is strict and total |
| HashMaps.StrLessIs | core/types.go:666-674 | text is ordered by its first difference, a prefix before what continues it |
| HashMaps.KeyOrder | core/types.go:651-711 | keys come in the order booleans, integers, keywords, nil, strings, symbols; integers from zero up and then the negative ones |
| HashMaps.HashMap.Find | core/types.go:1009-1019 | a scan from the front finds the key, or the only place it may be inserted |
| HashMaps.HashMap.Get | core/types.go:1193-1203 | the value of the key in whichever form the map is in |
| HashMaps.HashMap.Len | core/types.go:1205-1214 | the number of keys |
| HashMaps.HashMap.TrieRoot | core/types.go:1116-1127 | publishing the trie of a map under construction does not change the map |
| HashMaps.HashMap.Assoc | core/types.go:1138-1169 | a new map with the entry; the old one is as it was |
| HashMaps.HashMap.Dissoc | core/types.go:1171-1191 | a new map without the key; the old one is as it was; it is emptied exactly when the last key of a large map went |
| HashMaps.HashMap.Set | core/types.go:1228-1273 | stores in place, sorted while small, unless the map is an emptied trie, where it fails |
| HashMaps.HashMap.SmallIsSmall | core/types.go:1228-1273 | a map of more than eight keys is in one of the large forms |
| HashMaps.TrieOf | core/types.go:1075-1095 | the trie of a small map and one entry more |
| HashMaps.BuildTrie | core/types.go:1097-1114 | the trie of a map under construction |
| HashMaps.EmptiedTrieRefusesSet | core/types.go:1250-1251 | a map filled past eight keys and emptied again refuses Set |
| Vectors.AtIs | core/types.go:463-480 | walking the digits of an index finds the element of that index, at any height |
| Vectors.PushTailGood | core/types.go:595-610 | pushing a full tail appends its elements and grows the root exactly when the trie is full |
| Vectors.NewVector | core/types.go:448-450 | holds the items given |
| Vectors.At | core/types.go:463-480 | the element, or nothing past the end |
| Vectors.BuildFromFlat | core/types.go:578-593 | the trie and tail of a flat vector hold its elements |
| Vectors.Append | core/types.go:524-563 | one element more, in order; the tail is pushed when it is full |
| Vectors.Conj | core/types.go:524-563 | all elements in order; flat while it fits one leaf |
| Vectors.CopyTo | core/types.go:496-508 | copies a leaf into place and nothing before it |
| Vectors.Flatten | core/types.go:496-508 | writes the subtree's elements in order after what was written, and says how many |
| Vectors.ToSlice | core/types.go:482-494 | the elements in order |
| Rollback.AbortRestores | core/registration.go:153-241 | aborting leaves every binding as the journal expects it |
| Rollback.RollbackExact | core/registration.go:153-241 | after any interleaving of the operation's and others' writes, deletes, merges and rebuilds, abort leaves each binding as its last effective foreign write did, or as it was before the operation; the slot count is the number of bindings |
| Caches.HistorySound | core/env.go:338-398 | no sequence of writes, deletes, merges, rebuilds, registrations and aborts breaks the environment, and versions only grow |
| Caches.RetainedExact | core/env.go:1126-1200 | after any history the retained slot count is the number of bindings, and no two bindings share a cell |
| Caches.SiteSound | core/vm/vm.go:1632-1664 | an inline cache whose cell was resolved at one moment and read live at a later one gives, after any history, what the binding now holds |
| Caches.CallSound | runtime/eval.go:1009-1085 | a cached callee whose cell was resolved at one moment and read at a later one, live or not, is on the lean path and the full one what resolving the name anew would give, after any history |
| Caches.FallbackNotCacheable | runtime/call_cache.go:131-171 | caching the Lisp-2 fallback to the value cell would call a stale function once the function cell is bound |
| RootEnv.Env.Write | core/registration.go:314-362 | a write through the journal takes the before-image first and stamps the write after |
| RootEnv.Env.LocalCell | core/env.go:417-433 | the binding's cell, the inline cell for the first one, or a new one |
| RootEnv.Env.SetVarLocked | core/env.go:476-513 | writes unless the name is live and only a vacant one may be taken, or the limit is reached; the generation moves for a new or revived name |
| RootEnv.Env.SetFuncCellLocked | core/env.go:869-903 | the same in the function namespace |
| RootEnv.Env.SetBothLocked | core/env.go:338-398 | both namespaces or neither, with one reservation for both |
| RootEnv.Env.DeleteName | core/env.go:1094-1115 | tombstones the live cells of the name in both namespaces |
| RootEnv.Env.Pins | core/registration.go:364-371 | a tombstone of the running operation's own is kept for its abort |
| RootEnv.Env.Rebuild | core/env.go:1126-1200 | removes exactly the dead bindings no operation pins and says how many |
| RootEnv.Env.BeginRegistration | core/registration.go:66-85 | one operation at a time |
| RootEnv.Env.Complete | core/registration.go:289-304 | ends the operation and keeps what it wrote |
| RootEnv.Env.Abort | core/registration.go:153-241 | restores every binding still the operation's own and no other, in any order of the journal |
| PlainBindings.NextIs | core/env.go:477-512 | every write, delete, merge, rebuild, start, end and abort of a registration does to the cells, versions and journal what it does to two plain maps: what the names hold, and what they would hold if the registration were undone |
| PlainBindings.HistoryIs | core/env.go:338-398 | so after any history the environment holds what the plain maps hold after it |
| PlainBindings.HoldsAfter | core/env.go:477-512 | after a write a name holds what was put there, nothing if it was deleted, and otherwise what it held, whoever wrote; a merge lets its last item win |
| PlainBindings.WithinLimit | core/env.go:1126-1200 | no history passes the limit on bindings, deleted ones included |
| CacheBudget.AlwaysBalanced | runtime/eval.go:336-356 | in every interleaving each counter is the sum over resident chunks plus what running evaluations hold, and is within its ceiling |
| CacheBudget.NeverClamped | runtime/meter.go:117-131 | no return of the cache's own counters is ever clamped at zero, and the recheck before publication never fails |
| CacheBudget.AtRest | runtime/eval.go:476-483 | with no evaluation under way the counters are exactly the residents |
| CacheBudget.ReservesExactly | runtime/eval.go:336-356 | a reservation nothing disturbs is made exactly when there is room under all three ceilings, and otherwise leaves every counter as it was |
| CacheBudget.PublishesReserved | runtime/eval.go:286-307 | in every balanced state a reserved chunk can be published under a free key, and the recheck never refuses it |
| CacheBudget.OwnedOnce | runtime/eval.go:188-224 | in every run each completed reservation is published once or abandoned once or still held, and each abandoned or detached charge is released whole once or being released |
| CacheBudget.ResidentOnce | runtime/eval.go:291-307 | in every run what was published is resident or was detached once |
| CacheBudget.Reservation.Release | runtime/eval.go:218-224 | gives the charge back once |
| CacheBudget.Reservation.DetachPublish | runtime/eval.go:739-770 | whatever fails or panics on the way, the reservation becomes resident or is given back, once |
| LruStripe.Stripe.InsertHead | runtime/eval.go:358-367 | the list stays doubly linked in recency order with the entry first |
| LruStripe.Stripe.Unlink | runtime/eval.go:377-395 | the list without the entry, in the same order |
| LruStripe.Stripe.MoveToHead | runtime/eval.go:369-375 | the entry becomes the most recent; the others keep their order |
| LruStripe.Stripe.Get | runtime/eval.go:174-186 | a hit returns the chunk and makes it the most recent; a miss changes nothing |
| LruStripe.Stripe.Insert | runtime/eval.go:291-307 | the map gains the key and the list the entry in front |
| LruStripe.Stripe.Detach | runtime/eval.go:397-409 | the entry leaves the map and the list together |
| LruStripe.Stripe.EvictTail | runtime/eval.go:264-283 | evicts the least recently used entry |
| LruStripe.Stripe.FlushEpoch | runtime/eval.go:411-427 | removes precisely the entries older than the epoch and counts them |
| Budget.Counter.AddCharge | core/metering.go:530-537 | exact exactly when the charge is within the budget and the sum did not wrap |
| Budget.Counter.Saturate | core/metering.go:545-560 | pins a wrapped counter, and records an oversized charge up to the ceiling |
| Budget.Counter.Charge | core/metering.go:467-486 | admits exactly the charges that fit and remembers the whole demand up to the ceiling |
| Budget.PrivateExact | core/vm/vm.go:407-416 | the machine's private counter reads the sum of the charges up to the ceiling and refuses exactly those past the budget |
| Budget.AlwaysHonest | core/metering.go:467-560 | in every interleaving of the chargers that the ceiling allows for, every admission and refusal is true, nothing is admitted after a refusal, and admitted charges stay within the budget |
| Budget.PublishedExact | core/metering.go:572-578 | the total shown to readers is the true demand up to the ceiling in every reachable state if and only if the chargers together cannot carry a wrapped counter back to zero |
| Budget.Breach | core/metering.go:530-560 | with one charger too many there is a run that admits after a refusal |
| Budget.ClosesExactly | core/metering.go:530-560 | a refusal closes the budget for good if and only if all chargers but one together cannot carry a wrapped counter back to zero |
| Leases.GrantIs | runtime/meter.go:79-97 | a request is granted as far as the maximum leaves room, and where there is none as far as 64 bits do |
| Leases.AlwaysBalanced | core/metering.go:580-660 | in every interleaving the meter's use is what evaluations consumed plus what they hold on lease, and is within the limits |
| Leases.NeverClamped | runtime/meter.go:117-131 | no return of a lease is clamped |
| Leases.AtRest | core/metering.go:652-660 | once every evaluation has finished, the meter's use is exactly what they consumed |
| Leases.LeasesWhatIsLeft | core/metering.go:616-650 | a lease nothing disturbs grants of each kind what is asked for, one whole lease at most, as far as it is left |
| Leases.SpendsLease | core/metering.go:580-660 | a running evaluation can spend any part of its lease, to the last of it, and gives back exactly the rest |
| Leases.Meter.LeaseEval | runtime/meter.go:46-56 | grants as much of each request as is left, and denies when nothing is left of something asked for |
| Leases.Meter.ReturnEval | runtime/meter.go:58-61 | takes back what is given |
| Leases.EvalState.LeaseEval | core/metering.go:616-650 | draws at most one lease of each kind, and keeps nothing of a denied one |
| Leases.EvalState.ConsumeReductions | core/metering.go:580-596 | succeeds exactly when lease and meter together have the reductions, drawing lease after lease, and records what was consumed either way |
| Leases.EvalState.ReturnLease | core/metering.go:652-660 | gives back exactly what was not consumed |
| Settlement.SweptRest | core/metering.go:416-432 | what stays charged and what is released again is all that was owed |
| Settlement.RecordedIs | core/metering.go:416-432 | a cell carries the meter and size of the last pending for it whose cell is still there, and otherwise what it carried |
| Settlement.KeptIsCarried | core/metering.go:416-432 | what settling leaves charged to a meter is the size of the cells that from now on carry it |
| Settlement.Ledger.ChargeRetained | runtime/meter.go:63-72 | charges bytes and slots together or not at all |
| Settlement.Ledger.ReleaseRetained | runtime/meter.go:74-77 | pays one meter back and touches no other |
| Settlement.Ledger.ReleaseAll | core/metering.go:440-458 | every meter that does not break is paid back in full, and a break is reported at the end |
| Settlement.Ledger.ChargeAll | core/metering.go:397-414 | all meters are charged, or every meter that can take a release is as it was |
| Settlement.Ledger.Gather | core/metering.go:379-396 | one bill per meter, for the sum of its live cells |
| Settlement.Ledger.Record | core/metering.go:416-432 | live cells remember their meter; swept ones are billed back |
| Settlement.Ledger.Settle | core/metering.go:365-434 | settles exactly when every meter takes its bill and every release of a swept cell goes through; once every bill is taken the live cells remember their meter and each meter that can release carries them and no other, even where another's release then breaks; if a bill is refused, no cell changes and each meter that can release is as before |
| RoundTrip.ReadPrinted | core/depth.go:141-188 | a printed value of 64-bit integers, ASCII text, names, lists and vectors reads back as itself if and only if its names are ones the reader makes, its strings hold no control character but newline, tab and return, and it nests at most 1024 deep, and the dialect has brackets for its vectors |
| RoundTrip.ReadsBack | core/reader.go:742-830 | reading the full text of such a value gives the value, for any depth limit that admits it |
| RoundTrip.OnlyReadable | core/reader.go:742-830 | whatever is read has names the reader makes and nests no deeper than the limit |
| RoundTrip.Lex | core/reader.go:232-314 | the tokens of a printed value are the value's, whatever follows; an unreadable escape fails |
| RoundTrip.ParseBack | core/reader.go:742-911 | parsing a value's tokens gives the value and leaves the rest |
| RoundTrip.Untruncated | core/depth.go:141-188 | the printer cuts nothing within its depth |
| RoundTrip.Refuses | core/reader.go:391-412 | a string with an escape the reader does not know is refused, and so is a vector where the dialect has no brackets |
| Documents.ReadsText | core/reader.go:742-911 | a text of any number of documents, with marks, brackets, any spelling of numbers and strings, and blanks, commas and comments between tokens, reads as what they stand for, in order, exactly when they nest within the limit, and else not at all |
| Documents.ReadsMarked | core/reader.go:1079-1125 | a quote, backquote, tilde, tilde-at or hash-quote before any readable value reads as the list of quote, quasiquote, unquote, unquote-splicing or function and the value |
| Documents.GapTokens | core/reader.go:131-145 | blanks, commas and comments before a token change nothing |
| Documents.NumberReads | core/reader.go:414-426 | digits with a sign or zeros before them or without are the number they denote when 64 bits hold it, and are refused otherwise |
| Documents.Alphabet | core/reader.go:1167-1176 | the characters names are made of, one by one |
| Documents.ShortestInt | core/types.go:79-81 | an integer is printed as the shortest of its numerals |
| Documents.EscapeIs | core/types.go:136-138 | a character of a string is printed as itself, as a backslash and its own letter, or as a backslash, an x and its code, always in printable characters |
| Documents.ParseHigher | core/reader.go:742-911 | a higher depth limit changes nothing that could be read |
| Grammar.Cuts | core/reader.go:232-314 | a text that has tokens is cut into gaps and tokens as they are written, each as long as it can be |
| Grammar.ReadsExactly | core/reader.go:742-911 | a text reads as given values if and only if it is a document that stands for them and nests within the limit: unclosed strings and brackets, stray closing ones and unknown escapes are never read |
| Reader.Scanner.SkipWhitespace | core/reader.go:131-144 | skips blanks and commas |
| Reader.Scanner.ReadComment | core/reader.go:458-462 | skips to the end of the line |
| Reader.Scanner.ReadNumber | core/reader.go:414-426 | the longest run of number characters |
| Reader.Scanner.ReadString | core/reader.go:316-341 | the string's contents without copying up to the first escape |
| Reader.Scanner.ReadStringEscaped | core/reader.go:343-389 | the rest of it with the escapes resolved, or the fault |
| Reader.Scanner.AppendEscape | core/reader.go:391-412 | one escape, or the fault |
| Reader.Scanner.ScanToken | core/reader.go:232-314 | the next token, or its fault |
| Reader.Scanner.Tokenize | core/reader.go:146-189 | all tokens, or the first fault |
| Reader.Parser.TakeChildren | core/reader.go:694-709 | copies out the children above the mark in batches and unwinds the shared stack to it |
| Reader.Parser.ParseForm | core/reader.go:742-830 | one form or its fault; depth and shared stack are as before either way |
| Reader.Parser.ParseList | core/reader.go:832-865 | the list of the forms up to its parenthesis |
| Reader.Parser.ParseVector | core/reader.go:881-911 | the vector of the forms up to its bracket |
| Reader.Parser.ParseChildren | core/reader.go:832-865 | the forms up to the closing token, gathered on the shared stack |
| Reader.Parser.WrapForm | core/reader.go:1025-1036 | the quoted form |
| Reader.ReadText | core/reader.go:619-652 | all forms of a text, with the default depth when none is given |
| Interning.XorAgrees | core/fingerprint.go:107-128 | folding entries by exclusive or does not depend on the order a map iterates in |
| Interning.Agree | core/fingerprint.go:58-138 | values the pool takes for equal have the same fingerprint, where both have one |
| Interning.ReuseExact | core/vm/chunk.go:260-287 | of a literal without maps, every equal constant is the literal itself if and only if it holds no zero float that can be found again |
| Interning.Pool.IndexConstant | core/vm/constindex.go:29-35 | the constant is listed in its bucket, or among the slow ones |
| Interning.Pool.EnsureIndex | core/vm/constindex.go:19-27 | the index of a pool built without one covers every constant |
| Interning.Pool.FindConstant | core/vm/chunk.go:289-302 | finds a constant exactly when the pool holds an equal one |
| Interning.Pool.Scan | core/vm/chunk.go:260-287 | the same by looking at all of them |
| Interning.Pool.AddConstant | core/vm/chunk.go:260-287 | reuses an equal constant, or appends the value |
| Literals.EqualsExactly | core/types.go:140-145 | two values, the first without host values, are equal to the pool if and only if they are the same up to the signs of zeros and the order of map entries, hold no NaN and are not nested too deep |
| Literals.AddTwo | core/vm/chunk.go:260-302 | two literals added to a pool of literals get the same index if and only if they are the same in that sense |
| Literals.AddTwice | core/vm/chunk.go:260-302 | a literal added twice to any pool gets one index |
| LazyLayer.AlwaysProper | runtime/lazy_template.go:508-580 | in every interleaving no deleted name comes back before an activation, no name is published twice without a delete between, and nothing is published through an operation's view once its fence has returned |
| LazyLayer.TouchPublishes | runtime/lazy_template.go:508-580 | a first touch of a deferred name that nothing disturbs publishes it, through the view it came by if that still admits work and else into the root, and leaves all else as it was |
| LazyLayer.ViewAdmits | runtime/lazy_template.go:409-459 | a touch through the view of an operation that has begun publishes through it; once the operation is fenced or over, into the root |
| LazyLayer.DeleteDeletes | runtime/lazy_template.go:770-785 | a delete that nothing disturbs tombstones the name and takes it out, installed or not |
| LazyLayer.ActivationRevives | runtime/lazy_template.go:880-893 | a deleted name is published again by a touch once its plugin is activated with it |
| LazyLayer.KeepsFences | runtime/lazy_template.go:409-424 | a fence that has returned stays closed with nothing in flight |
| LazyLayer.KeepsCounts | runtime/lazy_template.go:444-459 | an operation's in-flight count is the number of tasks admitted through it |
| LazyLayer.KeepsLive | runtime/lazy_template.go:738-755 | a published name is recorded as installed, or is in the hands of the task that published it |
| LazyLayer.KeepsDead | runtime/lazy_template.go:770-790 | a deleted name is tombstoned until it is activated again |

## Left out

- Closures in the semantic theorem: `Chunks.ChunksPass` covers them and `Adequacy.SameMeaning` does not, because a closure over a binding repeated or made later resolves differently in the two evaluators. `Closures` says what the chunks of functions that capture nothing do, and of captured names which variable they are.
- Closures.CallMeaning: of functions whose body holds no further function and captures nothing; the arity check and rest parameters of a call are left out.
- Calls that change root bindings or captured variables: `Host.apply` returns a value or an error and leaves the caller's bindings and boxes alone.
- Frames: a call of a compiled function is `Host.apply`, so one frame of the machine is modelled; tail calls are not. The value a call or a closure gives is a parameter of the run.
- BoundSlots.CompiledBound: asks that the form fits, as code whose operands were cut may name other slots, and that no symbol is without letters, as the reader makes them.
- BoundSlots.Enter: does not say that compiled code with closures never underflows; `Adequacy.NeverBad` says it of code without them.
- Non-tail recur, def, defn, defmacro, quasiquote, macro expansion, constant folding of collection literals and variadic parameters.
- Chunks.ChunksPass: one direction, because a cut operand may still land in range of something else; the meaning, `Chunks.ChunkMeans`, is exact.
- Chunks.Evaluate: asks that the form fits; code whose operands were cut is run by the program like any other.
- Compiler.ComputeMaxStack: no bound on the height a run reaches, because a throw lowers the running height of the code after it; only the slot bound is used.
- StackVM.VM.Run: deadlines, cancellation, reduction and allocation charges between instructions are not modelled.
- Float keys and NaN: hashable values of `HashMaps` are booleans, 64-bit integers, strings, symbols and keywords.
- The hash function of the map's keys, which is arbitrary here, and the byte charges of copied nodes.
- Map and float literals in the reader, which `Reader` answers with a fault of their own; lines and columns; node and byte budgets.
- The memo and the cycle detection of fingerprints; a datum is a finite tree.
- ReplaceCell, which is meant for the forked scope of a loop; exact byte counts of retained bindings.
- Merging one environment into another is a function on values, `Cells.MergeAll`, with no loop of its own.
- The engine meter's own charge for cached chunks, the choice of stripe and the hashing of sources.
- Leases.EvalState.ConsumeReductions: the loop for allocated bytes, which is the same with another counter, is left out.
- Settlement.Ledger.Settle: does not set the environment's meter for a pending cell, and its sums are unbounded.
- LazyLayer.AlwaysProper: eager registration and the undoing of a failed operation's installs are left out.
- Dialects, the plugins, the file watcher, the shell and the statistics.
