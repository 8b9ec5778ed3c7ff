/** The instruction decoder (parse_instr_and_args) as a function of the code
    object and the instruction pointer. */
module Decoder {
  import opened Values

  /** The external opcode catalogue: the name of every opcode byte, the first
      opcode that takes an operand, and the classification tables that say how
      an operand is resolved. */
  datatype Opcodes = Opcodes(
    opname: byte -> string,
    haveArgument: int,
    hasConst: set<byte>,
    hasName: set<byte>,
    hasLocal: set<byte>,
    hasJrel: set<byte>)

  /** A decoded instruction: its name and its argument list (empty or one element). */
  datatype Instruction = Instruction(opName: string, argument: seq<Value>)

  /** The instruction pointer after decoding (it is advanced even when decoding
      raises part-way through) and the instruction or the exception. */
  datatype Decoded = Decoded(pos: nat, result: Result<Instruction>)

  /** The raw operand of a two-byte little-endian pair. */
  function OperandValue(lo: byte, hi: byte): (v: nat)
    ensures v < 65536
  {
    lo as int + hi as int * 256
  }

  /** Resolution of a raw operand through the classification tables, first
      match wins: constant pool, name table, local-name table, relative jump
      (measured from `next`, the pointer after the operand), raw value. */
  function ResolveOperand(ops: Opcodes, code: Code, op: byte, next: nat, v: nat): (r: Result<Value>)
    ensures r.Err? <==>
              || (op in ops.hasConst && v >= |code.consts|)
              || (op !in ops.hasConst && op in ops.hasName && v >= |code.names|)
              || (op !in ops.hasConst && op !in ops.hasName && op in ops.hasLocal && v >= |code.varnames|)
    ensures r.Err? ==> r.error == TupleIndexOutOfRange
    ensures r.Ok? && op in ops.hasConst ==> r.value in code.consts
    ensures r.Ok? && op !in ops.hasConst && op in ops.hasName ==> r.value.StrValue? && r.value.s in code.names
    ensures r.Ok? && op !in ops.hasConst && op !in ops.hasName && op in ops.hasLocal ==>
              r.value.StrValue? && r.value.s in code.varnames
    ensures op !in ops.hasConst && op !in ops.hasName && op !in ops.hasLocal ==>
              r == Ok(IntValue(if op in ops.hasJrel then next + v else v))
  {
    if op in ops.hasConst then
      if v < |code.consts| then Ok(code.consts[v]) else Err(TupleIndexOutOfRange)
    else if op in ops.hasName then
      if v < |code.names| then Ok(StrValue(code.names[v])) else Err(TupleIndexOutOfRange)
    else if op in ops.hasLocal then
      if v < |code.varnames| then Ok(StrValue(code.varnames[v])) else Err(TupleIndexOutOfRange)
    else if op in ops.hasJrel then
      Ok(IntValue(next + v))
    else
      Ok(IntValue(v))
  }

  /** Decodes the instruction at `pos`. */
  function Decode(ops: Opcodes, code: Code, pos: nat): (d: Decoded)
    ensures d.pos == pos || d.pos == pos + 1 || d.pos == pos + 3
    ensures d.result.Ok? ==> |d.result.value.argument| <= 1
  {
    if pos >= |code.bytes| then
      Decoded(pos, Err(IndexOutOfRange))
    else
      var op := code.bytes[pos];
      var name := ops.opname(op);
      if op as int >= ops.haveArgument then
        // the slice of the two operand bytes is short when the stream ends
        var next := pos + 3;
        if next > |code.bytes| then
          Decoded(next, Err(IndexOutOfRange))
        else
          var v := OperandValue(code.bytes[pos + 1], code.bytes[pos + 2]);
          match ResolveOperand(ops, code, op, next, v)
          case Ok(arg) => Decoded(next, Ok(Instruction(name, [arg])))
          case Err(e) => Decoded(next, Err(e))
      else
        Decoded(pos + 1, Ok(Instruction(name, [])))
  }

  /** Reading past the end of the stream raises and leaves the pointer alone. */
  lemma DecodePastEnd(ops: Opcodes, code: Code, pos: nat)
    requires pos >= |code.bytes|
    ensures Decode(ops, code, pos) == Decoded(pos, Err(IndexOutOfRange))
  {
  }

  /** An opcode below HAVE_ARGUMENT takes one byte and no argument. */
  lemma DecodeNoArgument(ops: Opcodes, code: Code, pos: nat)
    requires pos < |code.bytes| && (code.bytes[pos] as int) < ops.haveArgument
    ensures Decode(ops, code, pos).pos == pos + 1
    ensures Decode(ops, code, pos).result == Ok(Instruction(ops.opname(code.bytes[pos]), []))
  {
  }

  /** An opcode at or above HAVE_ARGUMENT whose operand bytes are cut off by the
      end of the stream raises after the pointer has moved by three. */
  lemma DecodeTruncated(ops: Opcodes, code: Code, pos: nat)
    requires pos < |code.bytes| < pos + 3 && code.bytes[pos] as int >= ops.haveArgument
    ensures Decode(ops, code, pos) == Decoded(pos + 3, Err(IndexOutOfRange))
  {
  }

  /** An opcode with an operand takes three bytes, and its single argument is
      resolved by the first table that classifies it. */
  lemma DecodeArgument(ops: Opcodes, code: Code, pos: nat)
    requires pos + 3 <= |code.bytes| && code.bytes[pos] as int >= ops.haveArgument
    ensures var op, d := code.bytes[pos], Decode(ops, code, pos);
            var v := code.bytes[pos + 1] as int + 256 * code.bytes[pos + 2] as int;
            var name := ops.opname(op);
            && d.pos == pos + 3
            && 0 <= v < 65536
            && (d.result.Ok? ==> |d.result.value.argument| == 1 && d.result.value.opName == name)
            && (op in ops.hasConst ==>
                  d.result == if v < |code.consts| then Ok(Instruction(name, [code.consts[v]])) else Err(TupleIndexOutOfRange))
            && (op !in ops.hasConst && op in ops.hasName ==>
                  d.result == if v < |code.names| then Ok(Instruction(name, [StrValue(code.names[v])])) else Err(TupleIndexOutOfRange))
            && (op !in ops.hasConst && op !in ops.hasName && op in ops.hasLocal ==>
                  d.result == if v < |code.varnames| then Ok(Instruction(name, [StrValue(code.varnames[v])])) else Err(TupleIndexOutOfRange))
            && (op !in ops.hasConst && op !in ops.hasName && op !in ops.hasLocal && op in ops.hasJrel ==>
                  d.result == Ok(Instruction(name, [IntValue(pos + 3 + v)])))
            && (op !in ops.hasConst && op !in ops.hasName && op !in ops.hasLocal && op !in ops.hasJrel ==>
                  d.result == Ok(Instruction(name, [IntValue(v)])))
  {
  }

  /** A relative jump lands at least three bytes past the jump instruction. */
  lemma JumpTargetBeyondInstruction(ops: Opcodes, code: Code, pos: nat)
    requires pos + 3 <= |code.bytes| && code.bytes[pos] as int >= ops.haveArgument
    requires var op := code.bytes[pos];
             op !in ops.hasConst && op !in ops.hasName && op !in ops.hasLocal && op in ops.hasJrel
    ensures var d := Decode(ops, code, pos);
            d.result.Ok? && d.result.value.argument[0].IntValue? &&
            d.result.value.argument[0].i >= pos + 3 &&
            d.result.value.argument[0].i - (pos + 3) < 65536
  {
  }

  /** The two operand bytes of a raw operand, low byte first: the inverse of
      OperandValue, as a compiler producing the stream writes them. */
  function OperandBytes(v: nat): (r: (byte, byte))
    requires v < 65536
  {
    ((v % 256) as byte, (v / 256) as byte)
  }

  lemma OperandBytesRoundTrip(v: nat)
    requires v < 65536
    ensures OperandValue(OperandBytes(v).0, OperandBytes(v).1) == v
  {
  }

  lemma OperandValueRoundTrip(lo: byte, hi: byte)
    ensures OperandBytes(OperandValue(lo, hi)) == (lo, hi)
  {
  }

  /** Decoding an instruction written as opcode, low byte, high byte gives back
      the operand, resolved through the tables, and moves past all three bytes. */
  lemma DecodeEncoded(ops: Opcodes, code: Code, pos: nat, op: byte, v: nat)
    requires v < 65536 && op as int >= ops.haveArgument
    requires pos + 3 <= |code.bytes|
    requires code.bytes[pos..pos + 3] == [op, OperandBytes(v).0, OperandBytes(v).1]
    ensures Decode(ops, code, pos).pos == pos + 3
    ensures Decode(ops, code, pos).result ==
              match ResolveOperand(ops, code, op, pos + 3, v)
              case Ok(arg) => Ok(Instruction(ops.opname(op), [arg]))
              case Err(e) => Err(e)
  {
    assert code.bytes[pos] == op && code.bytes[pos + 1] == OperandBytes(v).0 && code.bytes[pos + 2] == OperandBytes(v).1 by {
      assert code.bytes[pos..pos + 3][1] == code.bytes[pos + 1];
    }
    OperandBytesRoundTrip(v);
  }
}
