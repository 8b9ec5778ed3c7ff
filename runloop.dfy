/** The fetch/dispatch/unwind loop of run_frame as functions of the view the
    handlers see. Both loops of the source run without a bound; here the outer
    one runs at most `fuel` rounds, and each inner loop is bounded by the fuel
    the outer loop has left. */
module RunLoop {
  import opened Values
  import opened Decoder
  import opened Dispatcher

  /** How the inner (block-unwinding) loop ends: its condition turned false with
      this output; manage_block_stack raised; or it ran out of fuel. */
  datatype Unwinding =
    | Settled(view: View, output: Value)
    | UnwindRaised(view: View, exc: ExcInfo)
    | UnwindExhausted(view: View)

  /** How the outer loop ends: a truthy output broke it; an exception escaped
      from the decoder or from manage_block_stack; or it ran out of fuel. */
  datatype LoopEnd = Stopped(output: Value) | Escaped(exc: ExcInfo) | OutOfFuel

  datatype Ran = Ran(view: View, end: LoopEnd)

  /** The inner loop: while the output is truthy and the frame still has a
      block, the output is handed to the block manager and replaced by what it
      returns. It ends with a falsy output or with no block left. */
  function Unwind(h: Handlers, st: View, output: Value, fuel: nat): (u: Unwinding)
    ensures u.Settled? ==> !Truthy(u.output) || u.view.frame.blockStack == []
    ensures !Truthy(output) || st.frame.blockStack == [] ==> u == Settled(st, output)
    ensures u.UnwindExhausted? ==> Truthy(output) && st.frame.blockStack != []
    ensures Truthy(output) && st.frame.blockStack != [] && fuel > 0 &&
            h.manageBlockStack(st, output).completion.Raise? ==>
              u == UnwindRaised(h.manageBlockStack(st, output).view, h.manageBlockStack(st, output).completion.exc)
    decreases fuel
  {
    if !Truthy(output) || st.frame.blockStack == [] then Settled(st, output)
    else if fuel == 0 then UnwindExhausted(st)
    else
      var step := h.manageBlockStack(st, output);
      match step.completion
      case Raise(e) => UnwindRaised(step.view, e)
      case Normal(out) => Unwind(h, step.view, out, fuel - 1)
  }

  /** One round of the outer loop: decode, dispatch, unwind. */
  datatype Round = Continue(view: View) | Finished(ran: Ran)

  function RunRound(ops: Opcodes, h: Handlers, code: Code, st: View, fuel: nat): (r: Round)
    ensures r.Finished? && r.ran.end.Stopped? ==> Truthy(r.ran.end.output) && r.ran.view.frame.blockStack == []
    ensures Decode(ops, code, st.frame.pos).result.Err? ==>
              r == Finished(Ran(st.(frame := st.frame.(pos := Decode(ops, code, st.frame.pos).pos)),
                                Escaped(Decode(ops, code, st.frame.pos).result.error)))
    ensures Decode(ops, code, st.frame.pos).pos <= st.frame.pos ==> r.Finished? && r.ran.end.Escaped?
    ensures var d := Decode(ops, code, st.frame.pos);
            d.result.Ok? ==>
              var disp := Dispatch(h, st.(frame := st.frame.(pos := d.pos)), d.result.value.opName, d.result.value.argument);
              var u := Unwind(h, disp.view, disp.output, fuel);
              && (u.Settled? ==> (r.Continue? <==> !Truthy(u.output)))
              && (u.Settled? && !Truthy(u.output) ==> r == Continue(u.view))
              && (u.Settled? && Truthy(u.output) ==> r == Finished(Ran(u.view, Stopped(u.output))))
              && (u.UnwindRaised? ==> r == Finished(Ran(u.view, Escaped(u.exc))))
              && (u.UnwindExhausted? ==> r == Finished(Ran(u.view, OutOfFuel)))
  {
    var d := Decode(ops, code, st.frame.pos);
    var view := st.(frame := st.frame.(pos := d.pos));
    match d.result
    case Err(e) => Finished(Ran(view, Escaped(e)))
    case Ok(ins) =>
      var disp := Dispatch(h, view, ins.opName, ins.argument);
      match Unwind(h, disp.view, disp.output, fuel)
      case UnwindRaised(st', e) => Finished(Ran(st', Escaped(e)))
      case UnwindExhausted(st') => Finished(Ran(st', OutOfFuel))
      case Settled(st', out) =>
        if Truthy(out) then Finished(Ran(st', Stopped(out))) else Continue(st')
  }

  /** The outer loop: decodes, dispatches and unwinds round after round until
      an output is truthy or an exception escapes. It stops only on a truthy
      output, and then the frame's block stack is empty. */
  function Run(ops: Opcodes, h: Handlers, code: Code, st: View, fuel: nat): (r: Ran)
    ensures r.end.Stopped? ==> Truthy(r.end.output) && r.view.frame.blockStack == []
    ensures fuel == 0 ==> r == Ran(st, OutOfFuel)
    decreases fuel
  {
    if fuel == 0 then Ran(st, OutOfFuel)
    else
      match RunRound(ops, h, code, st, fuel)
      case Finished(ran) => ran
      case Continue(st') => Run(ops, h, code, st', fuel - 1)
  }

  /** The block manager leaves the exception record alone whenever it returns
      normally. */
  ghost predicate ManagerKeepsRecord(h: Handlers) {
    forall v: View, out: Value :: h.manageBlockStack(v, out).completion.Normal? ==>
      h.manageBlockStack(v, out).view.exception == v.exception
  }

  /** The inner loop writes the exception record only through the block
      manager: with a manager that leaves it alone, a settled or exhausted loop
      ends with the record it started with. */
  lemma {:induction false} UnwindKeepsException(h: Handlers, st: View, output: Value, fuel: nat)
    requires ManagerKeepsRecord(h)
    ensures var u := Unwind(h, st, output, fuel);
            !u.UnwindRaised? ==> u.view.exception == st.exception
    decreases fuel
  {
    if Truthy(output) && st.frame.blockStack != [] && fuel > 0 {
      var step := h.manageBlockStack(st, output);
      if step.completion.Normal? {
        UnwindKeepsException(h, step.view, step.completion.output, fuel - 1);
      }
    }
  }

  lemma {:induction false} UnwindFuelMonotone(h: Handlers, st: View, output: Value, fuel: nat, more: nat)
    requires fuel <= more && !Unwind(h, st, output, fuel).UnwindExhausted?
    ensures Unwind(h, st, output, more) == Unwind(h, st, output, fuel)
    decreases fuel
  {
    if Truthy(output) && st.frame.blockStack != [] {
      var step := h.manageBlockStack(st, output);
      if step.completion.Normal? {
        UnwindFuelMonotone(h, step.view, step.completion.output, fuel - 1, more - 1);
      }
    }
  }

  /** A run that finishes within some fuel finishes the same way with more: the
      fuel bound cuts off runs, it never changes a finished one. */
  lemma {:induction false} RunFuelMonotone(ops: Opcodes, h: Handlers, code: Code, st: View, fuel: nat, more: nat)
    requires fuel <= more && !Run(ops, h, code, st, fuel).end.OutOfFuel?
    ensures Run(ops, h, code, st, more) == Run(ops, h, code, st, fuel)
    decreases fuel
  {
    var d := Decode(ops, code, st.frame.pos);
    var view := st.(frame := st.frame.(pos := d.pos));
    if d.result.Ok? {
      var ins := d.result.value;
      var disp := Dispatch(h, view, ins.opName, ins.argument);
      if !Unwind(h, disp.view, disp.output, fuel).UnwindExhausted? {
        UnwindFuelMonotone(h, disp.view, disp.output, fuel, more);
      }
      assert RunRound(ops, h, code, st, more) == RunRound(ops, h, code, st, fuel);
    }
    match RunRound(ops, h, code, st, fuel)
    case Finished(_) =>
    case Continue(st') => RunFuelMonotone(ops, h, code, st', fuel - 1, more - 1);
  }
}
