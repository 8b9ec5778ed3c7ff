/** The dispatcher: how a decoded instruction reaches its handler, and how
    every failure on the way becomes the "EXCEPTION" output. The handlers
    themselves are parameters of the model. */
module Dispatcher {
  import opened Values
  import PyStrings

  /** What of the current frame a handler can see and change. */
  datatype FrameState = FrameState(dataStack: seq<Value>, blockStack: seq<Block>, pos: nat)

  /** What of the machine a handler can see and change: the current frame, the
      machine's return value and its exception record (each None while it was
      never set). */
  datatype View = View(frame: FrameState, returnValue: Option<Value>, exception: Option<ExcInfo>)

  /** How a handler finishes: with an output, or by raising. */
  datatype Completion = Normal(output: Value) | Raise(exc: ExcInfo)

  /** A handler's effect. Its changes to the view are kept even when it raises. */
  datatype Step = Step(view: View, completion: Completion)

  /** An `op_<name>` handler, called with the decoded argument list. */
  type OpHandler = (View, seq<Value>) -> Step
  /** UNARY_OP or BINARY_OP, called with the operator's name. */
  type FamilyHandler = (View, string) -> Step
  /** manage_block_stack, called with the current output. */
  type BlockManager = (View, Value) -> Step

  /** The handler table: `ops` is keyed by the attribute name `op_<name>`. */
  datatype Handlers = Handlers(
    ops: map<string, OpHandler>,
    unaryOp: FamilyHandler,
    binaryOp: FamilyHandler,
    manageBlockStack: BlockManager)

  /** The view after dispatch and its output. */
  datatype Dispatched = Dispatched(view: View, output: Value)

  function HandlerKey(opName: string): string {
    "op_" + opName
  }

  function UnsupportedOpcode(opName: string): ExcInfo {
    ExcInfo("NotImplementedError", "Unsupported bytecode type: " + opName + ".")
  }

  /** The handler dispatch calls for `opName` and what that call returns: the
      `op_<name>` handler, else the family handler named by the prefix with the
      second piece of the name. None when dispatch fails before calling one. */
  function Called(h: Handlers, view: View, opName: string, argument: seq<Value>): (r: Option<Step>)
    ensures r.None? <==>
              HandlerKey(opName) !in h.ops && ('_' !in opName || (!("UNARY_" <= opName) && !("BINARY_" <= opName)))
    ensures HandlerKey(opName) in h.ops ==> r == Some(h.ops[HandlerKey(opName)](view, argument))
  {
    PyStrings.SplitHasSecondPiece(opName, '_');
    if HandlerKey(opName) in h.ops then
      Some(h.ops[HandlerKey(opName)](view, argument))
    else
      var pieces := PyStrings.Split(opName, '_');
      if |pieces| < 2 then None
      else if "UNARY_" <= opName then Some(h.unaryOp(view, pieces[1]))
      else if "BINARY_" <= opName then Some(h.binaryOp(view, pieces[1]))
      else None
  }

  /** The exception dispatch raises itself when it calls no handler: indexing
      a split without a second piece, or the unsupported-opcode error. */
  function DispatchFailure(opName: string): (e: ExcInfo)
    ensures e == ListIndexOutOfRange <==> '_' !in opName
    ensures '_' in opName ==> e == UnsupportedOpcode(opName)
  {
    PyStrings.SplitHasSecondPiece(opName, '_');
    if |PyStrings.Split(opName, '_')| < 2 then ListIndexOutOfRange else UnsupportedOpcode(opName)
  }

  /** Records a handler's effect: a raise becomes the "EXCEPTION" output with
      the exception recorded; a normal output is the dispatch output when
      `keepOutput`, and None otherwise (the family handlers' results are dropped). */
  function Finish(step: Step, keepOutput: bool): (d: Dispatched)
    ensures d.view.frame == step.view.frame && d.view.returnValue == step.view.returnValue
    ensures step.completion.Raise? ==> d.output == ExceptionSignal && d.view.exception == Some(step.completion.exc)
    ensures step.completion.Normal? ==> d.view == step.view
    ensures step.completion.Normal? ==> d.output == if keepOutput then step.completion.output else NoneValue
  {
    match step.completion
    case Raise(e) => Dispatched(step.view.(exception := Some(e)), ExceptionSignal)
    case Normal(out) => Dispatched(step.view, if keepOutput then out else NoneValue)
  }

  /** dispatch(op_name, argument). */
  function Dispatch(h: Handlers, view: View, opName: string, argument: seq<Value>): (d: Dispatched)
    ensures match Called(h, view, opName, argument)
            case None =>
              d.output == ExceptionSignal && d.view.exception.Some? &&
              d.view.frame == view.frame && d.view.returnValue == view.returnValue
            case Some(step) =>
              d.view.frame == step.view.frame && d.view.returnValue == step.view.returnValue &&
              (d.view.exception != step.view.exception ==> d.output == ExceptionSignal && step.completion.Raise?)
  {
    match Called(h, view, opName, argument)
    case Some(step) => Finish(step, HandlerKey(opName) in h.ops)
    case None => Dispatched(view.(exception := Some(DispatchFailure(opName))), ExceptionSignal)
  }

  /** With an `op_<name>` handler, its output is the dispatch output, or its
      exception is recorded. */
  lemma DispatchToHandler(h: Handlers, view: View, opName: string, argument: seq<Value>)
    requires HandlerKey(opName) in h.ops
    ensures var step, d := h.ops[HandlerKey(opName)](view, argument), Dispatch(h, view, opName, argument);
            && (step.completion.Normal? ==> d == Dispatched(step.view, step.completion.output))
            && (step.completion.Raise? ==> d == Dispatched(step.view.(exception := Some(step.completion.exc)), ExceptionSignal))
  {
  }

  /** Without a handler, a name without an underscore has no operator class:
      indexing the split fails, nothing else happens. */
  lemma {:induction false} DispatchNameWithoutUnderscore(h: Handlers, view: View, opName: string, argument: seq<Value>)
    requires HandlerKey(opName) !in h.ops && '_' !in opName
    ensures Dispatch(h, view, opName, argument) ==
              Dispatched(view.(exception := Some(ListIndexOutOfRange)), ExceptionSignal)
  {
    PyStrings.SplitHasSecondPiece(opName, '_');
  }

  /** Without a handler, a name with an underscore but neither family prefix is
      unsupported, and nothing else happens. */
  lemma {:induction false} DispatchUnsupported(h: Handlers, view: View, opName: string, argument: seq<Value>)
    requires HandlerKey(opName) !in h.ops && '_' in opName
    requires !("UNARY_" <= opName) && !("BINARY_" <= opName)
    ensures Dispatch(h, view, opName, argument) ==
              Dispatched(view.(exception := Some(UnsupportedOpcode(opName))), ExceptionSignal)
  {
    PyStrings.SplitHasSecondPiece(opName, '_');
  }

  /** Without a handler, UNARY_<t> goes to UNARY_OP with the part of t before its
      first underscore; UNARY_OP's own output is dropped. */
  lemma {:induction false} DispatchUnary(h: Handlers, view: View, t: string, argument: seq<Value>)
    requires HandlerKey("UNARY_" + t) !in h.ops
    ensures var step := h.unaryOp(view, PyStrings.Split(t, '_')[0]);
            var d := Dispatch(h, view, "UNARY_" + t, argument);
            && (step.completion.Normal? ==> d == Dispatched(step.view, NoneValue))
            && (step.completion.Raise? ==> d == Dispatched(step.view.(exception := Some(step.completion.exc)), ExceptionSignal))
  {
    assert "UNARY_" + t == "UNARY" + ['_'] + t;
    PyStrings.SplitAfterPrefix("UNARY", '_', t);
  }

  /** Without a handler, BINARY_<t> goes to BINARY_OP with the part of t before
      its first underscore; BINARY_OP's own output is dropped. */
  lemma {:induction false} DispatchBinary(h: Handlers, view: View, t: string, argument: seq<Value>)
    requires HandlerKey("BINARY_" + t) !in h.ops
    ensures var step := h.binaryOp(view, PyStrings.Split(t, '_')[0]);
            var d := Dispatch(h, view, "BINARY_" + t, argument);
            && (step.completion.Normal? ==> d == Dispatched(step.view, NoneValue))
            && (step.completion.Raise? ==> d == Dispatched(step.view.(exception := Some(step.completion.exc)), ExceptionSignal))
  {
    assert "BINARY_" + t == "BINARY" + ['_'] + t;
    assert !("UNARY_" <= "BINARY_" + t) by {
      assert ("BINARY_" + t)[0] == 'B';
    }
    PyStrings.SplitAfterPrefix("BINARY", '_', t);
  }

  /** Only the word after the family prefix reaches UNARY_OP: two unary names
      without handlers whose words agree up to the next underscore dispatch
      alike. */
  lemma {:induction false} UnaryOperatorIsFirstWord(h: Handlers, view: View, t1: string, t2: string, argument: seq<Value>)
    requires HandlerKey("UNARY_" + t1) !in h.ops && HandlerKey("UNARY_" + t2) !in h.ops
    requires PyStrings.Split(t1, '_')[0] == PyStrings.Split(t2, '_')[0]
    ensures Dispatch(h, view, "UNARY_" + t1, argument) == Dispatch(h, view, "UNARY_" + t2, argument)
  {
    DispatchUnary(h, view, t1, argument);
    DispatchUnary(h, view, t2, argument);
  }

  /** Only the word after the family prefix reaches BINARY_OP: BINARY_FLOOR_DIVIDE
      arrives as "FLOOR", and so dispatches like any BINARY_FLOOR_<x>. */
  lemma {:induction false} BinaryOperatorIsFirstWord(h: Handlers, view: View, t1: string, t2: string, argument: seq<Value>)
    requires HandlerKey("BINARY_" + t1) !in h.ops && HandlerKey("BINARY_" + t2) !in h.ops
    requires PyStrings.Split(t1, '_')[0] == PyStrings.Split(t2, '_')[0]
    ensures Dispatch(h, view, "BINARY_" + t1, argument) == Dispatch(h, view, "BINARY_" + t2, argument)
  {
    DispatchBinary(h, view, t1, argument);
    DispatchBinary(h, view, t2, argument);
  }
}
