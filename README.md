# A verified model of a stack-based bytecode interpreter

This project models in Dafny the core of a small Python bytecode interpreter:
the `VirtualMachine` of `interpret.py`, with its `Frame` and `Block` records.

The machine keeps a call stack of frames, and the current frame is always the
top of that stack. Each frame has a global and a local environment, a data
stack, a block stack and an instruction pointer. `run_frame` pushes a frame and
then loops:

1. it decodes one instruction;
2. it dispatches the instruction to a handler;
3. while the output is truthy and blocks remain, it hands the output to
   `manage_block_stack`;
4. it stops on a truthy output.

Then it pops the frame. It either returns the machine's return value or
raises the recorded exception.

Modules, one per component:

- `Values` (values.dfy) holds host values and their truthiness, code objects,
  blocks, the exception record (type and value) and `Result`.
- `Decoder` (decoder.dfy) is `parse_instr_and_args` as a function `Decode`.
  It reads the opcode byte and, at or above `HAVE_ARGUMENT`, a two-byte
  little-endian operand. It resolves the operand through the classification
  tables in the order constant, name, local, relative jump, raw value. It also
  records how far the pointer has moved, including when decoding raises part
  of the way through. `OperandBytes`, the compiler's side of the operand
  format, is its inverse.
- `PyStrings` (pystrings.dfy) is `str.split`, which dispatch uses to find the
  operator class of an opcode name.
- `Dispatcher` (dispatcher.dfy) is `dispatch` as a function. It tries the
  `op_<name>` handler first, then the `UNARY_`/`BINARY_` families. Every
  failure becomes the output `"EXCEPTION"`, with the exception recorded.
- `RunLoop` (runloop.dfy) gives the two loops of `run_frame` as the functions
  `Unwind`, `RunRound` and `Run`, together with lemmas about them.
- `Machine` (machine.dfy) holds the classes `Env`, `Frame` and
  `VirtualMachine`. Their methods change the state in place, as the source
  does. Each method's `ensures` ties the new state to the functions above.
- `StackLaws` (stacklaws.dfy) holds client methods showing that on each of the
  data, block and call stacks a push followed by a pop restores the stack.

Inputs the source takes from its host are parameters of the machine, held in
two `const` fields:

- `opcodes` is the opcode catalogue: `opname`, `HAVE_ARGUMENT`, and the
  tables `hasconst`, `hasname`, `haslocal` and `hasjrel`.
- `handlers` holds the `op_*` handlers, `UNARY_OP`, `BINARY_OP` and
  `manage_block_stack`. The source never defines these.

A handler is a function from what it can see (the current frame's data stack,
block stack and pointer, plus the machine's return value and exception record)
to a new view, together with either an output or a raised exception. The
handler's changes are kept when it raises.

In these places the model follows what the code does, which a reader might
not expect:

- Decoding past the end of the stream, a truncated operand, or an operand out
  of range of its table raises `IndexError`. After a truncated operand or a
  bad table index the pointer has already moved by 3; past the end it has not
  moved. An
  opcode with an operand that no table classifies is not an error: its raw
  value is returned.
- A dispatched name with no handler and no underscore fails with `IndexError`,
  because `split("_")[1]` fails. Other unknown names fail with
  `NotImplementedError`.
- The output of `UNARY_OP`/`BINARY_OP` is dropped: dispatch returns None after
  them.
- `construct_frame` merges the call arguments only for an outermost frame. If
  both environments are supplied, the local one is replaced by the global one.
  If only one is supplied, it is ignored.
- An exception from the decoder or from `manage_block_stack` escapes
  `run_frame` before `pop_frame`. The frame is then left on the call stack
  (`Aborted`).
- A stale or never-set return value or exception record is read as it stands.
  One that was never set raises `AttributeError` (`MissingReturnValue`,
  `MissingException`).

Two of the source's fields are only declared at class level; the model gives
them initial values instead:

- `self.frame` is only annotated in the source, so reading it before the
  first `push_frame` raises `AttributeError` there. Here it starts as `null`,
  the value `pop_frame` leaves once the call stack is empty.
- `pos` is a class attribute in the source. Here it is a per-frame field
  starting at 0.

## Model

| member | source | states |
|---|---|---|
| Values.Truthy | interpret.py:96-98 | a value is falsy exactly when it is None, False, 0 or the empty string |
| Decoder.OperandValue | interpret.py:151-153 | the raw operand `lo + 256*hi` lies in 0..65535 |
| Decoder.ResolveOperand | interpret.py:154-163 | resolution fails, with IndexError "tuple index out of range", exactly when the first table that classifies the opcode is too short for the operand; a constant comes from the constant pool, a name from the name table, a local from the local-name table; an opcode in none of those three tables yields the jump target `next + v` when it is a relative jump and the raw operand otherwise |
| Decoder.Decode | interpret.py:145-168 | the pointer moves by 0, 1 or 3 and at most one argument is produced |
| Decoder.DecodePastEnd | interpret.py:147 | reading the opcode past the end of the stream raises IndexError and leaves the pointer unchanged |
| Decoder.DecodeNoArgument | interpret.py:147-150 | an opcode below HAVE_ARGUMENT moves the pointer by exactly 1 and yields its name with an empty argument list |
| Decoder.DecodeTruncated | interpret.py:150-153 | an argument opcode whose operand bytes are cut off raises IndexError after the pointer has moved by 3 |
| Decoder.DecodeArgument | interpret.py:150-164 | an argument opcode moves the pointer by exactly 3 and yields exactly one argument; the operand `lo + 256*hi` is resolved by the first matching table (const, name, local, jrel), else returned raw; an index out of range of its table raises IndexError |
| Decoder.JumpTargetBeyondInstruction | interpret.py:151-161 | a relative jump's target is the pointer after both operand bytes plus the operand, so at least the original pointer + 3 |
| Decoder.OperandBytesRoundTrip | interpret.py:153 | writing an operand as low byte and high byte and reading it back gives the operand |
| Decoder.OperandValueRoundTrip | interpret.py:153 | every pair of operand bytes is the encoding of the operand read from it |
| Decoder.DecodeEncoded | interpret.py:147-164 | decoding an encoded opcode-operand instruction moves past all three bytes and resolves the original operand |
| PyStrings.Split | interpret.py:190 | `split` yields at least one piece and no piece contains the separator |
| PyStrings.JoinSplit | interpret.py:190 | joining the pieces of `split` with the separator gives back the string |
| PyStrings.SplitHasSecondPiece | interpret.py:190 | `split("_")[1]` exists exactly when the name contains an underscore |
| PyStrings.SplitAfterPrefix | interpret.py:190 | after a separator-free prefix and a separator, the pieces are the prefix and the pieces of the rest |
| Dispatcher.Called | interpret.py:188-194 | dispatch calls no handler exactly when there is no `op_<name>` handler and the name has no underscore or neither family prefix; with an `op_<name>` handler, that handler is the one called |
| Dispatcher.DispatchFailure | interpret.py:190-196 | the exception dispatch raises itself is IndexError "list index out of range" exactly when the name has no underscore, and the unsupported-opcode NotImplementedError otherwise |
| Dispatcher.Finish | interpret.py:192-202 | a handler's raise becomes the output "EXCEPTION" with its exception recorded over the handler's view; a normal return keeps the handler's view, record included, and its output only for an `op_` handler |
| Dispatcher.Dispatch | interpret.py:183-202 | when dispatch calls no handler, the output is "EXCEPTION", an exception is recorded and nothing else changes; when it calls one, the frame and return value are the handler's, and dispatch itself changes the handler's exception record only when the handler raised and the output is "EXCEPTION" |
| Dispatcher.DispatchToHandler | interpret.py:188-201 | with an `op_<name>` handler, its output is the dispatch output and its effect is kept; if it raises, the output is "EXCEPTION" and its exception is recorded |
| Dispatcher.DispatchNameWithoutUnderscore | interpret.py:189-201 | with no handler and no underscore in the name, dispatch records IndexError, outputs "EXCEPTION" and changes nothing else |
| Dispatcher.DispatchUnsupported | interpret.py:189-201 | with no handler and neither family prefix, dispatch records NotImplementedError("Unsupported bytecode type: <name>."), outputs "EXCEPTION" and changes nothing else |
| Dispatcher.DispatchUnary | interpret.py:189-192 | with no handler, `UNARY_<t>` calls UNARY_OP with the part of t before its first underscore, keeps its effect and outputs None, or "EXCEPTION" if it raised |
| Dispatcher.DispatchBinary | interpret.py:189-194 | with no handler, `BINARY_<t>` calls BINARY_OP in the same way |
| Dispatcher.UnaryOperatorIsFirstWord | interpret.py:190-192 | without handlers, `UNARY_<t1>` and `UNARY_<t2>` dispatch identically whenever t1 and t2 agree up to their first underscore |
| Dispatcher.BinaryOperatorIsFirstWord | interpret.py:190-194 | without handlers, `BINARY_<t1>` and `BINARY_<t2>` dispatch identically whenever t1 and t2 agree up to their first underscore, so BINARY_FLOOR_DIVIDE reaches BINARY_OP as "FLOOR" |
| RunLoop.Unwind | interpret.py:96-97 | the inner loop ends with a falsy output or an empty block stack; with a falsy output or no block it does nothing; a raising block manager ends the loop with its exception, over its changes; it runs out of fuel only while its condition holds |
| RunLoop.RunRound | interpret.py:94-99 | a round whose unwinding settles stops exactly when its unwound output is truthy, with that output, and otherwise continues from the unwound view; a stop always has an empty block stack; a raising block manager ends the run with its exception, over its changes; a decoding error ends the run with that error and the advanced pointer |
| RunLoop.Run | interpret.py:93-99 | the outer loop stops only on a truthy output, and then the frame's block stack is empty |
| RunLoop.UnwindKeepsException | interpret.py:96-97 | the inner loop does not write the exception record itself: with a block manager that leaves it alone, a loop that settles or runs out of fuel ends with the record it started with |
| RunLoop.UnwindFuelMonotone | interpret.py:96-97 | an inner loop that ends within its fuel bound ends identically with more fuel |
| RunLoop.RunFuelMonotone | interpret.py:93-99 | a run that ends within its fuel bound ends identically with more fuel, so the bound never changes a finished run |
| Machine.SliceStart | interpret.py:141-142 | the start of `s[i:]` lies within the list |
| Machine.PopNCut | interpret.py:141-142 | `data_stack[-n:]` starts at len-n for 1 <= n <= len, at 0 for n == 0 and for n > len, and at min(-n, len) for negative n |
| Machine.PopNTakesLastN | interpret.py:139-143 | for 1 <= n <= len, popn takes exactly the last n items in their original order and leaves the prefix, and the two make up the old stack |
| Machine.TopLevelBindings | interpret.py:68-74 | the outermost environment holds `__builtins__`, `__name__ = "__main__"`, `__doc__` and `__package__` (None), each overridden by a call argument of the same name, plus every call argument |
| Machine.Outcome | interpret.py:101-109 | run_frame returns the return value exactly when the loop stopped on an output other than "EXCEPTION" and a return value is set; on "EXCEPTION" it raises the recorded exception, or AttributeError for a record never set; a never-set return value raises AttributeError |
| Machine.Env.constructor | interpret.py:66-73 | a new dictionary holds the given bindings |
| Machine.Frame.constructor | interpret.py:15-25 | a new frame has its code, environments and previous frame, empty data and block stacks and pointer 0 |
| Machine.VirtualMachine.constructor | interpret.py:48-52 | a new machine has an empty call stack, no current frame, no return value and no exception |
| Machine.VirtualMachine.Valid | interpret.py:79-87 | the current frame is null exactly when the call stack is empty, and otherwise is its top |
| Machine.VirtualMachine.ConstructFrame | interpret.py:54-75 | if both environments are supplied, the local one is the global one; otherwise, with a non-empty call stack, the global one is the current frame's and the local one is a fresh empty dictionary; otherwise one fresh dictionary of TopLevelBindings is both; the previous frame is always the current frame |
| Machine.VirtualMachine.PushFrame | interpret.py:79-82 | the frame is appended to the call stack and becomes the current frame |
| Machine.VirtualMachine.PopFrame | interpret.py:84-87 | the last frame is removed and the current frame becomes the new top, or null; an empty call stack raises IndexError |
| Machine.VirtualMachine.RunFrame | interpret.py:89-109 | the frame's final state, the return value and the exception record are those of RunLoop.Run from the entry state; the result is Outcome of that run; the call stack is restored when the loop stopped on an output, and keeps the frame pushed when an exception escaped |
| Machine.VirtualMachine.RunOneRound | interpret.py:94-99 | one round's effect and how it ends are those of RunLoop.RunRound |
| Machine.VirtualMachine.UnwindBlocks | interpret.py:96-97 | the inner loop's effect and final output are those of RunLoop.Unwind |
| Machine.VirtualMachine.PushBlock | interpret.py:113-116 | appends a block whose stack height is the current data-stack length; the data stack and pointer are unchanged; without a current frame it raises AttributeError |
| Machine.VirtualMachine.PopBlock | interpret.py:118-120 | returns the most recently pushed block and leaves exactly the blocks before it; an empty block stack raises IndexError; the data stack is unchanged; without a current frame it raises AttributeError |
| Machine.VirtualMachine.ManageBlockStack | interpret.py:97 | the external block manager's effect is kept and its output or exception returned |
| Machine.VirtualMachine.Commit | interpret.py:97-98 | a handler's changes to the current frame, the return value and the exception record are written back |
| Machine.VirtualMachine.Top | interpret.py:127-129 | returns the last element without changing the stack; an empty stack raises IndexError; without a current frame it raises AttributeError |
| Machine.VirtualMachine.Pop | interpret.py:131-133 | returns the last element and leaves exactly the elements before it; an empty stack raises IndexError; without a current frame it raises AttributeError |
| Machine.VirtualMachine.Push | interpret.py:135-137 | appends the values in order, so the last of them is then on top; without a current frame it raises AttributeError |
| Machine.VirtualMachine.PopN | interpret.py:139-143 | returns `data_stack[-n:]` and leaves exactly the part before it, so popn(0) returns and clears the whole stack; without a current frame it raises AttributeError |
| Machine.VirtualMachine.ParseInstrAndArgs | interpret.py:145-168 | the new pointer and the result are those of Decoder.Decode; only the pointer changes |
| Machine.VirtualMachine.Dispatch | interpret.py:183-202 | the new view, the output and the exception record are those of Dispatcher.Dispatch |
| StackLaws.PushThenPop | interpret.py:131-137 | pushing a value and popping gives it back and restores the data stack |
| StackLaws.PushThenPopN | interpret.py:135-143 | pushing n >= 1 values and popping n gives them back in order and restores the data stack |
| StackLaws.PushBlockThenPopBlock | interpret.py:113-120 | pushing a block and popping gives it back, with the data-stack height at the push, and restores the block stack |
| StackLaws.PushFrameThenPopFrame | interpret.py:79-87 | pushing a frame and popping restores the call stack and the current frame |

## Left out

- The run loop is fuel-bounded. `run_frame`'s two `while` loops have no bound
  in the source; here the outer one runs at most `fuel` rounds, and each
  inner loop is bounded by the fuel the outer loop has left. `Unfinished` stands for a run cut off by the
  bound. `RunLoop.RunFuelMonotone` shows that the bound never changes a run
  that ends within it.
- Machine.VirtualMachine.RunFrame: a run cut off by the fuel bound returns
  `Unfinished` and leaves the frame pushed, where the source would go on
  looping.
- What handlers may do is narrower than in the source:
  - They see and change only the current frame's stacks, its pointer, the
    machine's return value and its exception record.
  - Changes to environments and to other frames are not modelled.
  - So are calls that re-enter `run_frame`, i.e. function calls.
  - The source places no limit on a handler method.
- Bodies of `op_*`, `UNARY_OP`, `BINARY_OP`, `manage_block_stack` and
  `unwind_block` are parameters. The source never defines them.
- Rebuilding the host exception and its traceback before `raise`
  (interpret.py:103-107) is not modelled. The raise is the result
  `Raised(exc)`.
- `execute` only builds a frame and returns nothing (interpret.py:170-177),
  so it is not modelled.
- The `Function` class (interpret.py:205-244) is not modelled, and neither
  are cells, closures or default arguments. It is a wrapper over host
  function objects and host argument binding.
- `Frame.__post_init__` (interpret.py:27-33) is not modelled, so builtin-name
  lookup is not either. It reads an attribute that does not exist and host
  builtins.
- The sandbox code `TestModel`, `gen` and `l` (interpret.py:247-268) only
  exercises host iteration and attributes.
- interpret2.py is an abandoned coroutine pipeline and is not part of this
  model. structs.py and helpers.py are not part of this model either: they
  hold duplicate records and host closure helpers.
- Host values are reduced to None, booleans, integers, strings and opaque
  objects. Opaque objects are always truthy, and output is compared with
  "EXCEPTION" by value equality; custom `__bool__` and `__eq__` are not
  modelled.
- `__builtins__` is a parameter of `ConstructFrame` standing for the host
  builtins module.
- Exception values are their type name and message. The third element of the
  recorded triple is always None in the source and is omitted.
- Machine.VirtualMachine.Dispatch, Machine.VirtualMachine.Commit,
  Machine.VirtualMachine.ManageBlockStack, Machine.VirtualMachine.UnwindBlocks
  and Machine.VirtualMachine.RunOneRound require a current frame: the model
  needs one to build the handlers' view. In the source these are reached only
  from `run_frame`, after its `push_frame` (interpret.py:91). `Commit` has no
  counterpart in the source; it writes a handler's view back.
- The instruction pointer is a `nat`. A negative pointer, which Python would
  read from the end of the byte string, is not modelled.
- Default arguments of the source are explicit parameters here:
  `popn`'s `n = 1`, `push_block`'s `handler = None` and `construct_frame`'s
  `call_args = {}`.
- Machine.VirtualMachine.ConstructFrame: before the first `push_frame` the
  source has no `frame` attribute at all, so there `construct_frame` and the
  stack methods raise an `AttributeError` naming `frame`. The model treats
  that state like the empty call stack `pop_frame` leaves (`frame` null):
  `ConstructFrame` builds an outermost frame, and the stack methods raise the
  `'NoneType' object` error.
