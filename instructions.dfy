/**
 * The runtime's instruction format: register names, opcodes, operands and
 * instructions, and the objects a register or an operand holds. The live
 * `Instruction`, `Operand` and `Opcodes` classes are not part of this model;
 * their shape is the one the builder and the machine use them by.
 */
module Instructions {
  import opened JavaInt
  import opened DataTypes
  import opened Exceptions

  /** `RegId`: stack, base and instruction pointers and eight general registers. */
  datatype RegId = SP | BP | IP | R1 | R2 | R3 | R4 | R5 | R6 | R7 | R8

  /** The object a register or an operand encloses: nothing, a boxed `int`, a
      `String`, or a register name. */
  datatype Value = Null | IntV(n: int32) | StrV(s: string) | RegName(id: RegId)

  /** A register's content: an object and the type it is tagged with. */
  datatype Cell = Cell(value: Value, dtype: DataType)

  /** The operation codes, in declaration order. */
  datatype Opcode =
    | MOV | ADD | SUB | MULT | DIV | EXP | NEG | SAR | SAL | SLR | SLL
    | PUSH | POP
    | CMP | TEST | OR | XOR | AND
    | JMP | JL | JLE | JG | JGE | JE | JNE
    | SETL | SETLE | SETG | SETGE | SETE | SETNE
    | PRNT | CLR

  /** An operand names a register, carries an immediate, or refers to a
      variable of some type at a storage offset. */
  datatype Operand = Reg(id: RegId) | ImmInt(n: int32) | ImmStr(s: string) | Ref(dtype: DataType, offset: int32)

  /** `getType`: the type tag an operand reports. */
  function TypeOf(op: Operand): (t: DataType)
    ensures op.Reg? ==> t == Register
    ensures op.ImmInt? ==> t == Imm_Int4
    ensures op.ImmStr? ==> t == Imm_Str
  {
    match op
    case Reg(_) => Register
    case ImmInt(_) => Imm_Int4
    case ImmStr(_) => Imm_Str
    case Ref(t, _) => t
  }

  /** `getEnclosed`: the object an operand carries; a reference carries its offset. */
  function Enclosed(op: Operand): Value
  {
    match op
    case Reg(id) => RegName(id)
    case ImmInt(n) => IntV(n)
    case ImmStr(s) => StrV(s)
    case Ref(_, offset) => IntV(offset)
  }

  /** An instruction: an opcode and its operand list, which CLR leaves null. */
  datatype Instruction = Instruction(code: Opcode, operands: Option<seq<Operand>>)

  /** `(int) x` on an Object: unboxing fails on null and on anything but an Integer. */
  function AsInt(v: Value): (r: Try<int32>)
    ensures r.Ok? <==> v.IntV?
    ensures v.IntV? ==> r.value == v.n
  {
    match v
    case IntV(n) => Ok(n)
    case Null => Thrown(NullPointer)
    case _ => Thrown(ClassCast)
  }

  /** `(RegId) x`: only a register name casts. */
  function AsReg(v: Value): (r: Try<RegId>)
    ensures r.Ok? <==> v.RegName?
    ensures v.RegName? ==> r.value == v.id
  {
    match v
    case RegName(id) => Ok(id)
    case _ => Thrown(ClassCast)
  }

  /** `(String) x`: a string, or null, which casts and reads as nothing when appended. */
  function AsText(v: Value): (r: Try<string>)
    ensures r.Ok? <==> v.StrV? || v.Null?
    ensures v.StrV? ==> r == Ok(v.s)
  {
    match v
    case StrV(s) => Ok(s)
    case Null => Ok("")
    case _ => Thrown(ClassCast)
  }

  /** `operands.get(i)`: a null list fails on the call, a short one on the index. */
  function Arg(operands: Option<seq<Operand>>, i: nat): (r: Try<Operand>)
    ensures r.Ok? <==> operands.Some? && i < |operands.value|
    ensures r.Ok? ==> r.value == operands.value[i]
  {
    match operands
    case None => Thrown(NullPointer)
    case Some(ops) => if i < |ops| then Ok(ops[i]) else Thrown(IndexOutOfBounds(i))
  }
}

/**
 * The older runtime's instruction format: eight general registers and the
 * eight opcodes its machine knows.
 */
module LegacyInstructions {
  import opened Instructions

  /** The older `Register` enum: R1 to R8 only. */
  predicate IsGeneral(r: RegId) { !(r.SP? || r.BP? || r.IP?) }
  type GeneralReg = r: RegId | IsGeneral(r) witness R1

  /** `Instruction.Opcode`. */
  datatype LegacyOpcode = MOVE | ADD | SUBTRACT | MULTIPLY | DIVIDE | PUSH | POP | PRINT

  datatype LegacyInstruction = LegacyInstruction(code: LegacyOpcode, operands: seq<Operand>)
}
