/** The virtual machine itself: frames, their data and block stacks, the call
    stack, and the methods that change them in place. */
module Machine {
  import opened Values
  import opened Decoder
  import opened Dispatcher
  import opened RunLoop

  /** A name-to-value dictionary. Frames hold references to environments, so
      two frames, or the two environments of one frame, can share one. */
  class Env {
    var bindings: map<string, Value>

    constructor (bindings: map<string, Value>)
      ensures this.bindings == bindings
    {
      this.bindings := bindings;
    }
  }

  /** One call's execution context. */
  class Frame {
    const code: Code
    const globalEnv: Env
    const localEnv: Env
    const prevFrame: Frame?
    var dataStack: seq<Value>
    var blockStack: seq<Block>
    var pos: nat

    constructor (code: Code, globalEnv: Env, localEnv: Env, prevFrame: Frame?)
      ensures this.code == code && this.globalEnv == globalEnv && this.localEnv == localEnv
      ensures this.prevFrame == prevFrame
      ensures dataStack == [] && blockStack == [] && pos == 0
    {
      this.code := code;
      this.globalEnv := globalEnv;
      this.localEnv := localEnv;
      this.prevFrame := prevFrame;
      dataStack := [];
      blockStack := [];
      pos := 0;
    }

    /** The part of the frame that handlers see and change. */
    function State(): FrameState
      reads this
    {
      FrameState(dataStack, blockStack, pos)
    }
  }

  /** The start of the slice `s[i:]` of a list of length `len`, with Python's
      rules for negative and out-of-range indices. */
  function SliceStart(len: nat, i: int): (k: nat)
    ensures k <= len
  {
    if i < 0 then (if i + len < 0 then 0 else i + len)
    else if i > len then len
    else i
  }

  /** Where popn(n) cuts the data stack: the start of `data_stack[-n:]`. */
  lemma PopNCut(len: nat, n: int)
    ensures 1 <= n <= len ==> SliceStart(len, -n) == len - n
    ensures n == 0 ==> SliceStart(len, -n) == 0
    ensures n > len ==> SliceStart(len, -n) == 0
    ensures n < 0 ==> SliceStart(len, -n) == if -n < len then -n else len
  {
  }

  /** For 1 <= n <= len, popn(n) takes exactly the last n items in their order,
      and what is taken and what is left make up the old stack. */
  lemma PopNTakesLastN(s: seq<Value>, n: int)
    requires 1 <= n <= |s|
    ensures var k := SliceStart(|s|, -n);
            |s[k..]| == n && |s[..k]| == |s| - n &&
            (forall j :: 0 <= j < n ==> s[k..][j] == s[|s| - n + j]) &&
            s[..k] + s[k..] == s
  {
  }

  /** The environment of an outermost frame: the configuration record, then
      updated with the call arguments. */
  function TopLevelBindings(builtins: Value, callArgs: map<string, Value>): (m: map<string, Value>)
    ensures m.Keys == callArgs.Keys + {"__builtins__", "__name__", "__doc__", "__package__"}
    ensures forall k :: k in callArgs ==> m[k] == callArgs[k]
    ensures "__builtins__" !in callArgs ==> m["__builtins__"] == builtins
    ensures "__name__" !in callArgs ==> m["__name__"] == StrValue("__main__")
    ensures "__doc__" !in callArgs ==> m["__doc__"] == NoneValue
    ensures "__package__" !in callArgs ==> m["__package__"] == NoneValue
  {
    map["__builtins__" := builtins, "__name__" := StrValue("__main__"),
        "__doc__" := NoneValue, "__package__" := NoneValue] + callArgs
  }

  /** What run_frame finally does: return the return value, raise the recorded
      exception after the frame was popped, let an exception escape with the
      frame still on the call stack, or (here only) run out of fuel. */
  datatype RunResult = Returned(value: Value) | Raised(exc: ExcInfo) | Aborted(exc: ExcInfo) | Unfinished

  /** The result of run_frame for a finished loop. A missing return value or
      exception record raises AttributeError, as reading an attribute that was
      only annotated does. */
  function Outcome(ran: Ran): (r: RunResult)
    ensures r.Returned? <==> ran.end.Stopped? && ran.end.output != ExceptionSignal && ran.view.returnValue.Some?
    ensures r.Returned? ==> r.value == ran.view.returnValue.value
    ensures ran.end.Stopped? && ran.end.output == ExceptionSignal ==>
              r == Raised(if ran.view.exception.Some? then ran.view.exception.value else MissingException)
    ensures ran.end.Stopped? && ran.end.output != ExceptionSignal && ran.view.returnValue.None? ==>
              r == Raised(MissingReturnValue)
    ensures r.Aborted? <==> ran.end.Escaped?
    ensures r.Unfinished? <==> ran.end.OutOfFuel?
  {
    match ran.end
    case Stopped(output) =>
      if output == ExceptionSignal then
        (match ran.view.exception
         case Some(e) => Raised(e)
         case None => Raised(MissingException))
      else
        (match ran.view.returnValue
         case Some(v) => Returned(v)
         case None => Raised(MissingReturnValue))
    case Escaped(e) => Aborted(e)
    case OutOfFuel => Unfinished
  }

  class VirtualMachine {
    /** The opcode catalogue and the handlers, both external to the machine. */
    const opcodes: Opcodes
    const handlers: Handlers

    var callStack: seq<Frame>
    /** The current frame: the top of the call stack, null when it is empty. */
    var frame: Frame?
    var returnValue: Option<Value>
    var exception: Option<ExcInfo>

    ghost predicate Valid()
      reads this
      ensures Valid() ==> (frame == null <==> callStack == [])
      ensures Valid() && callStack != [] ==> frame == callStack[|callStack| - 1]
    {
      frame == if callStack == [] then null else Last(callStack)
    }

    constructor (opcodes: Opcodes, handlers: Handlers)
      ensures Valid() && this.opcodes == opcodes && this.handlers == handlers
      ensures callStack == [] && returnValue == None && exception == None
    {
      this.opcodes := opcodes;
      this.handlers := handlers;
      callStack := [];
      frame := null;
      returnValue := None;
      exception := None;
    }

    /** What handlers see while `f` is the current frame. */
    function Snapshot(f: Frame): View
      reads this, f
    {
      View(f.State(), returnValue, exception)
    }

    /** Builds the frame for `code`, choosing its environments. Only the
        environments it allocates itself are written. */
    method ConstructFrame(code: Code, callArgs: map<string, Value>, globalEnv: Env?, localEnv: Env?, builtins: Value)
      returns (f: Frame)
      requires Valid()
      ensures fresh(f) && f.code == code && f.prevFrame == frame
      ensures f.dataStack == [] && f.blockStack == [] && f.pos == 0
      ensures globalEnv != null && localEnv != null ==>
                f.globalEnv == globalEnv && f.localEnv == globalEnv
      ensures !(globalEnv != null && localEnv != null) && callStack != [] ==>
                f.globalEnv == frame.globalEnv && fresh(f.localEnv) && f.localEnv.bindings == map[]
      ensures !(globalEnv != null && localEnv != null) && callStack == [] ==>
                fresh(f.globalEnv) && f.localEnv == f.globalEnv &&
                f.globalEnv.bindings == TopLevelBindings(builtins, callArgs)
    {
      var g: Env, l: Env;
      if globalEnv != null && localEnv != null {
        g, l := globalEnv, globalEnv;
      } else if callStack != [] {
        g := frame.globalEnv;
        l := new Env(map[]);
      } else {
        g := new Env(map["__builtins__" := builtins, "__name__" := StrValue("__main__"),
                         "__doc__" := NoneValue, "__package__" := NoneValue]);
        l := g;
        l.bindings := l.bindings + callArgs;
      }
      f := new Frame(code, g, l, frame);
    }

    // Call-stack manipulation

    method PushFrame(f: Frame)
      requires Valid()
      modifies this`callStack, this`frame
      ensures Valid()
      ensures callStack == old(callStack) + [f] && frame == f
    {
      callStack := callStack + [f];
      frame := f;
    }

    /** Pops the call stack; popping an empty one raises and changes nothing. */
    method PopFrame() returns (r: Result<()>)
      requires Valid()
      modifies this`callStack, this`frame
      ensures Valid()
      ensures old(callStack) == [] ==> r == Err(PopFromEmptyList) && callStack == []
      ensures old(callStack) != [] ==> r == Ok(()) && callStack == old(callStack)[..|old(callStack)| - 1]
    {
      if callStack == [] {
        return Err(PopFromEmptyList);
      }
      callStack := callStack[..|callStack| - 1];
      frame := if callStack != [] then Last(callStack) else null;
      r := Ok(());
    }

    /** Runs frame `f` on top of the call stack. The frame is pushed and the
        loop runs as RunLoop.Run says; the frame is popped again exactly when
        the loop stopped on an output, so the call stack is then as it was on
        entry; an exception escaping the loop leaves the frame pushed. */
    method RunFrame(f: Frame, fuel: nat) returns (r: RunResult)
      requires Valid()
      modifies this`callStack, this`frame, this`returnValue, this`exception, f`dataStack, f`blockStack, f`pos
      ensures Valid()
      ensures var ran := Run(opcodes, handlers, f.code, old(Snapshot(f)), fuel);
              && Snapshot(f) == ran.view
              && r == Outcome(ran)
              && callStack == if ran.end.Stopped? then old(callStack) else old(callStack) + [f]
    {
      ghost var start := Snapshot(f);
      PushFrame(f);
      var k := fuel;
      var end: LoopEnd := OutOfFuel;
      var done := false;
      while !done
        invariant Valid() && frame == f && callStack == old(callStack) + [f]
        invariant !done ==> Run(opcodes, handlers, f.code, start, fuel) == Run(opcodes, handlers, f.code, Snapshot(f), k)
        invariant done ==> Run(opcodes, handlers, f.code, start, fuel) == Ran(Snapshot(f), end)
        decreases !done, k
      {
        if k == 0 {
          done := true;
          end := OutOfFuel;
        } else {
          var stop := RunOneRound(f, k);
          if stop.Some? {
            end := stop.value;
            done := true;
          } else {
            k := k - 1;
          }
        }
      }
      if end.Stopped? {
        var _ := PopFrame();
        if end.output == ExceptionSignal {
          r := Raised(if exception.Some? then exception.value else MissingException);
        } else if returnValue.Some? {
          r := Returned(returnValue.value);
        } else {
          r := Raised(MissingReturnValue);
        }
      } else if end.Escaped? {
        r := Aborted(end.exc);
      } else {
        r := Unfinished;
      }
    }

    /** One round of the outer loop of run_frame: decode, dispatch, unwind.
        `stop` is None when the loop goes on, and says how it ended otherwise. */
    method RunOneRound(f: Frame, fuel: nat) returns (stop: Option<LoopEnd>)
      requires frame == f
      modifies this`returnValue, this`exception, f`dataStack, f`blockStack, f`pos
      ensures match RunRound(opcodes, handlers, f.code, old(Snapshot(f)), fuel)
              case Continue(v) => stop == None && Snapshot(f) == v
              case Finished(ran) => stop == Some(ran.end) && Snapshot(f) == ran.view
    {
      var instr := ParseInstrAndArgs(f);
      if instr.Err? {
        return Some(Escaped(instr.error));
      }
      var output := Dispatch(instr.value.opName, instr.value.argument);
      output, stop := UnwindBlocks(f, output, fuel);
      if stop.None? && Truthy(output) {
        stop := Some(Stopped(output));
      }
    }

    /** The inner loop of run_frame: manage_block_stack runs while the output
        is truthy and blocks remain, at most `fuel` times. `stop` is None when
        the loop condition turned false, and says why the loop was cut off
        otherwise. */
    method UnwindBlocks(f: Frame, output0: Value, fuel: nat) returns (output: Value, stop: Option<LoopEnd>)
      requires frame == f
      modifies this`returnValue, this`exception, f`dataStack, f`blockStack, f`pos
      ensures match Unwind(handlers, old(Snapshot(f)), output0, fuel)
              case Settled(st, out) => stop == None && Snapshot(f) == st && output == out
              case UnwindRaised(st, e) => stop == Some(Escaped(e)) && Snapshot(f) == st
              case UnwindExhausted(st) => stop == Some(OutOfFuel) && Snapshot(f) == st
    {
      ghost var start := Snapshot(f);
      output := output0;
      stop := None;
      var j := fuel;
      while stop.None? && Truthy(output) && f.blockStack != []
        invariant frame == f
        invariant stop.None? ==> Unwind(handlers, start, output0, fuel) == Unwind(handlers, Snapshot(f), output, j)
        invariant stop.Some? ==>
                    (stop == Some(OutOfFuel) && Unwind(handlers, start, output0, fuel) == UnwindExhausted(Snapshot(f))) ||
                    (stop.value.Escaped? && Unwind(handlers, start, output0, fuel) == UnwindRaised(Snapshot(f), stop.value.exc))
        decreases stop.None?, j
      {
        if j == 0 {
          stop := Some(OutOfFuel);
        } else {
          var next := ManageBlockStack(output);
          if next.Err? {
            stop := Some(Escaped(next.error));
          } else {
            output := next.value;
            j := j - 1;
          }
        }
      }
    }

    // Block-stack manipulation

    /** Pushes a block that remembers the current data-stack height. Without a
        current frame, reading its data stack raises. */
    method PushBlock(blockType: string, handler: Value) returns (r: Result<()>)
      modifies if frame == null then {} else {frame}
      ensures frame == null ==> r == Err(NoFrameDataStack)
      ensures frame != null ==>
                && r == Ok(())
                && frame.blockStack == old(frame.blockStack) + [Block(blockType, handler, |old(frame.dataStack)|)]
                && frame.dataStack == old(frame.dataStack) && frame.pos == old(frame.pos)
    {
      if frame == null {
        return Err(NoFrameDataStack);
      }
      var stackHeight := |frame.dataStack|;
      frame.blockStack := frame.blockStack + [Block(blockType, handler, stackHeight)];
      r := Ok(());
    }

    /** Pops the most recently pushed block; an empty block stack raises, and so
        does a missing current frame. */
    method PopBlock() returns (r: Result<Block>)
      modifies if frame == null then {} else {frame}
      ensures frame == null ==> r == Err(NoFrameBlockStack)
      ensures frame != null ==> frame.dataStack == old(frame.dataStack) && frame.pos == old(frame.pos)
      ensures frame != null && old(frame.blockStack) == [] ==> r == Err(PopFromEmptyList) && frame.blockStack == []
      ensures frame != null && old(frame.blockStack) != [] ==>
                && r == Ok(Last(old(frame.blockStack)))
                && frame.blockStack == old(frame.blockStack)[..|old(frame.blockStack)| - 1]
    {
      if frame == null {
        return Err(NoFrameBlockStack);
      }
      if frame.blockStack == [] {
        return Err(PopFromEmptyList);
      }
      r := Ok(Last(frame.blockStack));
      frame.blockStack := frame.blockStack[..|frame.blockStack| - 1];
    }

    /** manage_block_stack: the external block manager applied to the current
        frame; its effect is kept, and its exception is returned. */
    method ManageBlockStack(output: Value) returns (r: Result<Value>)
      requires frame != null
      modifies this`returnValue, this`exception, frame`dataStack, frame`blockStack, frame`pos
      ensures var step := handlers.manageBlockStack(old(Snapshot(frame)), output);
              && Snapshot(frame) == step.view
              && r == match step.completion
                      case Normal(out) => Ok(out)
                      case Raise(e) => Err(e)
    {
      var step := handlers.manageBlockStack(Snapshot(frame), output);
      Commit(step.view);
      match step.completion
      case Normal(out) => r := Ok(out);
      case Raise(e) => r := Err(e);
    }

    /** Writes a handler's view back to the machine and the current frame. */
    method Commit(v: View)
      requires frame != null
      modifies this`returnValue, this`exception, frame`dataStack, frame`blockStack, frame`pos
      ensures Snapshot(frame) == v
    {
      frame.dataStack := v.frame.dataStack;
      frame.blockStack := v.frame.blockStack;
      frame.pos := v.frame.pos;
      returnValue := v.returnValue;
      exception := v.exception;
    }

    // Data-stack manipulation

    /** The top of the data stack, which is left as it is. */
    method Top() returns (r: Result<Value>)
      ensures frame == null ==> r == Err(NoFrameDataStack)
      ensures frame != null && frame.dataStack == [] ==> r == Err(ListIndexOutOfRange)
      ensures frame != null && frame.dataStack != [] ==> r == Ok(frame.dataStack[|frame.dataStack| - 1])
    {
      if frame == null {
        return Err(NoFrameDataStack);
      }
      if frame.dataStack == [] {
        return Err(ListIndexOutOfRange);
      }
      r := Ok(Last(frame.dataStack));
    }

    /** Removes and returns the top of the data stack; an empty stack raises. */
    method Pop() returns (r: Result<Value>)
      modifies if frame == null then {} else {frame}
      ensures frame == null ==> r == Err(NoFrameDataStack)
      ensures frame != null ==> frame.blockStack == old(frame.blockStack) && frame.pos == old(frame.pos)
      ensures frame != null && old(frame.dataStack) == [] ==> r == Err(PopFromEmptyList) && frame.dataStack == []
      ensures frame != null && old(frame.dataStack) != [] ==>
                && r == Ok(Last(old(frame.dataStack)))
                && frame.dataStack == old(frame.dataStack)[..|old(frame.dataStack)| - 1]
    {
      if frame == null {
        return Err(NoFrameDataStack);
      }
      if frame.dataStack == [] {
        return Err(PopFromEmptyList);
      }
      r := Ok(Last(frame.dataStack));
      frame.dataStack := frame.dataStack[..|frame.dataStack| - 1];
    }

    /** Pushes the values in order, so the last of them ends on top. */
    method Push(vals: seq<Value>) returns (r: Result<()>)
      modifies if frame == null then {} else {frame}
      ensures frame == null ==> r == Err(NoFrameDataStack)
      ensures frame != null ==>
                && r == Ok(())
                && frame.dataStack == old(frame.dataStack) + vals
                && frame.blockStack == old(frame.blockStack) && frame.pos == old(frame.pos)
      ensures frame != null && vals != [] ==> Last(frame.dataStack) == Last(vals)
    {
      if frame == null {
        return Err(NoFrameDataStack);
      }
      frame.dataStack := frame.dataStack + vals;
      r := Ok(());
    }

    /** Removes and returns the slice `data_stack[-n:]`: the last n items for
        1 <= n <= height, and the whole stack for n == 0. */
    method PopN(n: int) returns (r: Result<seq<Value>>)
      modifies if frame == null then {} else {frame}
      ensures frame == null ==> r == Err(NoFrameDataStack)
      ensures frame != null ==>
                var k := SliceStart(|old(frame.dataStack)|, -n);
                && r == Ok(old(frame.dataStack)[k..])
                && frame.dataStack == old(frame.dataStack)[..k]
                && frame.blockStack == old(frame.blockStack) && frame.pos == old(frame.pos)
    {
      if frame == null {
        return Err(NoFrameDataStack);
      }
      var k := SliceStart(|frame.dataStack|, -n);
      r := Ok(frame.dataStack[k..]);
      frame.dataStack := frame.dataStack[..k];
    }

    /** Decodes the instruction at `f.pos`, moving the pointer step by step;
        nothing but the pointer changes. */
    method ParseInstrAndArgs(f: Frame) returns (r: Result<Instruction>)
      modifies f`pos
      ensures Decode(opcodes, f.code, old(f.pos)) == Decoded(f.pos, r)
    {
      if f.pos >= |f.code.bytes| {
        return Err(IndexOutOfRange);
      }
      var op := f.code.bytes[f.pos];
      f.pos := f.pos + 1;
      var opName := opcodes.opname(op);
      if op as int >= opcodes.haveArgument {
        var at := f.pos;
        f.pos := f.pos + 2;
        if at + 2 > |f.code.bytes| {
          return Err(IndexOutOfRange);
        }
        var v := f.code.bytes[at] as int + f.code.bytes[at + 1] as int * 256;
        var arg: Value;
        if op in opcodes.hasConst {
          if v >= |f.code.consts| { return Err(TupleIndexOutOfRange); }
          arg := f.code.consts[v];
        } else if op in opcodes.hasName {
          if v >= |f.code.names| { return Err(TupleIndexOutOfRange); }
          arg := StrValue(f.code.names[v]);
        } else if op in opcodes.hasLocal {
          if v >= |f.code.varnames| { return Err(TupleIndexOutOfRange); }
          arg := StrValue(f.code.varnames[v]);
        } else if op in opcodes.hasJrel {
          arg := IntValue(f.pos + v);
        } else {
          arg := IntValue(v);
        }
        r := Ok(Instruction(opName, [arg]));
      } else {
        r := Ok(Instruction(opName, []));
      }
    }

    /** Sends an instruction to its handler; every failure becomes the
        "EXCEPTION" output with the exception recorded. */
    method Dispatch(opName: string, argument: seq<Value>) returns (output: Value)
      requires frame != null
      modifies this`returnValue, this`exception, frame`dataStack, frame`blockStack, frame`pos
      ensures var d := Dispatcher.Dispatch(handlers, old(Snapshot(frame)), opName, argument);
              Snapshot(frame) == d.view && output == d.output
    {
      var key := HandlerKey(opName);
      var step: Step;
      var keepOutput := false;
      if key in handlers.ops {
        step := handlers.ops[key](Snapshot(frame), argument);
        keepOutput := true;
      } else {
        var pieces := PyStrings.Split(opName, '_');
        if |pieces| < 2 {
          exception := Some(ListIndexOutOfRange);
          return ExceptionSignal;
        }
        var opClass := pieces[1];
        if "UNARY_" <= opName {
          step := handlers.unaryOp(Snapshot(frame), opClass);
        } else if "BINARY_" <= opName {
          step := handlers.binaryOp(Snapshot(frame), opClass);
        } else {
          exception := Some(UnsupportedOpcode(opName));
          return ExceptionSignal;
        }
      }
      Commit(step.view);
      match step.completion
      case Raise(e) =>
        exception := Some(e);
        output := ExceptionSignal;
      case Normal(out) =>
        output := if keepOutput then out else NoneValue;
    }
  }
}
