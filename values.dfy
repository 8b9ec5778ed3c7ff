/** Values and records shared by every part of the interpreter model. */
module Values {

  /** One byte of an instruction stream. */
  newtype byte = x: int | 0 <= x < 256

  datatype Option<T> = None | Some(value: T)

  /** The outcome of a host operation that may raise: either a value or the
      exception it raises. */
  datatype Result<T> = Ok(value: T) | Err(error: ExcInfo)

  /** A host (Python) object as far as the interpreter needs to tell them
      apart: literals of the constant pool, names, jump targets, and opaque
      objects such as modules, identified by a number. */
  datatype Value =
    | NoneValue
    | BoolValue(b: bool)
    | IntValue(i: int)
    | StrValue(s: string)
    | HostObject(id: nat)

  /** Python truthiness of a value. Opaque host objects are taken to use the
      default object truthiness (always true). */
  predicate Truthy(v: Value)
    ensures !Truthy(v) <==> v in [NoneValue, BoolValue(false), IntValue(0), StrValue("")]
  {
    match v
    case NoneValue => false
    case BoolValue(b) => b
    case IntValue(i) => i != 0
    case StrValue(s) => s != ""
    case HostObject(_) => true
  }

  /** The output string by which dispatch reports that the instruction raised. */
  const ExceptionSignal: Value := StrValue("EXCEPTION")

  /** An exception as recorded by the machine: its type and its value. The
      third component of the triple the source stores (the traceback) is
      always None there and is omitted here. */
  datatype ExcInfo = ExcInfo(excType: string, message: string)

  const IndexOutOfRange := ExcInfo("IndexError", "index out of range")
  const TupleIndexOutOfRange := ExcInfo("IndexError", "tuple index out of range")
  const ListIndexOutOfRange := ExcInfo("IndexError", "list index out of range")
  const PopFromEmptyList := ExcInfo("IndexError", "pop from empty list")
  const MissingException := ExcInfo("AttributeError", "'VirtualMachine' object has no attribute 'exception'")
  const NoFrameDataStack := ExcInfo("AttributeError", "'NoneType' object has no attribute 'data_stack'")
  const NoFrameBlockStack := ExcInfo("AttributeError", "'NoneType' object has no attribute 'block_stack'")
  const MissingReturnValue := ExcInfo("AttributeError", "'VirtualMachine' object has no attribute 'return_value'")

  /** A compiled procedure: instruction bytes, constant pool, name table and
      local-name table. Immutable, so a value. */
  datatype Code = Code(bytes: seq<byte>, consts: seq<Value>, names: seq<string>, varnames: seq<string>)

  /** One entry of a frame's block stack: its type, its handler and the
      data-stack height when it was pushed. */
  datatype Block = Block(blockType: string, handler: Value, stackHeight: nat)

  function Last<T>(s: seq<T>): T
    requires |s| > 0
  {
    s[|s| - 1]
  }
}
