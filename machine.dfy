/**
 * The virtual machine: eleven registers, the ZF/SF/OF flags, the hardware
 * stack, variable storage and a console, and the loop that runs a loaded
 * program under the instruction pointer.
 *
 * One instruction's effect is the function `Exec` on a machine state; the
 * `VirtualMachine` class keeps that state in its fields, the stack object and
 * the storage object, and its `Execute` loop applies `Exec` to them.
 */
module Machines {
  import opened JavaInt
  import opened DataTypes
  import opened Exceptions
  import opened Instructions
  import opened StaticMemories
  import Stacks

  datatype Flags = Flags(zf: bool, sf: bool, of: bool)

  /** The registers the machine keeps itself; SP and BP belong to the stack. */
  datatype Bank = Bank(ip: Cell, r1: Cell, r2: Cell, r3: Cell, r4: Cell, r5: Cell, r6: Cell, r7: Cell, r8: Cell)

  /** Everything an instruction can read or change. `console` is the console
      text, or None before a console is attached. */
  datatype Machine = Machine(
    sp: Cell, bp: Cell, bank: Bank, flags: Flags,
    slots: seq<Cell>, store: seq<byte>, console: Option<string>)

  /** `m_registers.get(r)`. */
  function Read(m: Machine, r: RegId): Cell
  {
    match r
    case SP => m.sp
    case BP => m.bp
    case IP => m.bank.ip
    case R1 => m.bank.r1
    case R2 => m.bank.r2
    case R3 => m.bank.r3
    case R4 => m.bank.r4
    case R5 => m.bank.r5
    case R6 => m.bank.r6
    case R7 => m.bank.r7
    case R8 => m.bank.r8
  }

  /** `Register.set(value, type)` on register `r`: only that register changes. */
  function Write(m: Machine, r: RegId, c: Cell): (m': Machine)
    ensures Read(m', r) == c
    ensures forall q :: q != r ==> Read(m', q) == Read(m, q)
    ensures m'.flags == m.flags && m'.slots == m.slots && m'.store == m.store && m'.console == m.console
  {
    match r
    case SP => m.(sp := c)
    case BP => m.(bp := c)
    case IP => m.(bank := m.bank.(ip := c))
    case R1 => m.(bank := m.bank.(r1 := c))
    case R2 => m.(bank := m.bank.(r2 := c))
    case R3 => m.(bank := m.bank.(r3 := c))
    case R4 => m.(bank := m.bank.(r4 := c))
    case R5 => m.(bank := m.bank.(r5 := c))
    case R6 => m.(bank := m.bank.(r6 := c))
    case R7 => m.(bank := m.bank.(r7 := c))
    case R8 => m.(bank := m.bank.(r8 := c))
  }

  /** `Register.set(value)`: a new int keeps the register's type tag. */
  function SetInt(c: Cell, n: int32): Cell { c.(value := IntV(n)) }

  /** A result, or the exception thrown and the state the machine was left in. */
  datatype Outcome<T> = Done(value: T) | Raised(at: Machine, e: Exception)
  {
    predicate IsFailure() { Raised? }
    function PropagateFailure<U>(): Outcome<U> requires Raised? { Raised(at, e) }
    function Extract(): T requires Done? { value }
  }

  /** An operation that may throw, performed in state `m`. */
  function At<T>(m: Machine, t: Try<T>): Outcome<T>
  {
    match t
    case Ok(v) => Done(v)
    case Thrown(e) => Raised(m, e)
  }

  /** `(byte) x` on an Object: no operand or register ever holds a Byte, so
      the cast always fails. */
  function ByteCast(v: Value): Exception
  {
    if v.Null? then NullPointer else ClassCast
  }

  /** `retrieve(t, offset)`: only Int4 has a codec. */
  function Retrieve(store: seq<byte>, t: DataType, offset: int32): Try<int32>
  {
    if t != Int4 then Thrown(NullPointer) else Load(store, offset)
  }

  /** `assign(v, t, offset)`: only Int4 has a codec, whose encoder unboxes the
      value; bytes before a position outside the store stay written. */
  function Assign(m: Machine, v: Value, t: DataType, offset: int32): Outcome<Machine>
  {
    if t != Int4 then Raised(m, NullPointer)
    else
      var n :- At(m, AsInt(v));
      var written := Put(m.store, offset, Encode(n));
      var m' := m.(store := written.0);
      if written.1.Some? then Raised(m', written.1.value) else Done(m')
  }

  const MOV_TO_IMMEDIATE := "MOV: Only moves to register or reference stored in a register supported"
  const MOV_MISMATCH := "MOV: Type mismatch, conversion not supported"
  const MOV_LITERAL := "MOV: Moving a literal type directly to variable storage not supported"
  const MOV_MEMORY := "MOV: Direct memory-to-memory moves not supported"

  /** MOV dst, src. */
  function Mov(m: Machine, ops: Option<seq<Operand>>): Outcome<Machine>
  {
    var dst :- At(m, Arg(ops, 0));
    var src :- At(m, Arg(ops, 1));
    if TypeOf(dst) == Imm_Int4 || TypeOf(dst) == Imm_Str then Raised(m, UnsupportedOperation(MOV_TO_IMMEDIATE))
    else if TypeOf(dst) == Register then
      if TypeOf(src) == Register then
        var s :- At(m, AsReg(Enclosed(src)));
        var d :- At(m, AsReg(Enclosed(dst)));
        Done(Write(m, d, Read(m, s)))
      else if TypeOf(src) == Imm_Int4 then
        var d :- At(m, AsReg(Enclosed(dst)));
        Done(Write(m, d, Cell(Enclosed(src), Int4)))
      else if TypeOf(src) == Imm_Str then
        var d :- At(m, AsReg(Enclosed(dst)));
        Done(Write(m, d, Cell(Enclosed(src), Imm_Str)))
      else
        var d :- At(m, AsReg(Enclosed(dst)));
        var offset :- At(m, AsInt(Enclosed(src)));
        var v :- At(m, Retrieve(m.store, TypeOf(src), offset));
        Done(Write(m, d, Cell(IntV(v), TypeOf(src))))
    else if TypeOf(src) == Register then
      var s :- At(m, AsReg(Enclosed(src)));
      if Read(m, s).dtype != TypeOf(dst) then Raised(m, UnsupportedOperation(MOV_MISMATCH))
      else
        var offset :- At(m, AsInt(Enclosed(dst)));
        Assign(m, Read(m, s).value, TypeOf(dst), offset)
    else if TypeOf(src) == Imm_Int4 || TypeOf(src) == Imm_Str then Raised(m, UnsupportedOperation(MOV_LITERAL))
    else Raised(m, UnsupportedOperation(MOV_MEMORY))
  }

  /** The two-register instructions, and the name their messages use. */
  predicate IsBinary(code: Opcode) { code == ADD || code == SUB || code == MULT || code == DIV || code == EXP }

  function Title(code: Opcode): string
    requires IsBinary(code)
  {
    match code
    case ADD => "ADD"
    case SUB => "SUBTRACT"
    case MULT => "MULTIPLY"
    case DIV => "DIVIDE"
    case EXP => "EXP"
  }

  /** The checks every two-register instruction makes first: both operands
      are registers, and the registers hold the same type. Gives the
      destination operand and both register names. */
  function Registers2(code: Opcode, m: Machine, ops: Option<seq<Operand>>): Outcome<(Operand, RegId, RegId)>
    requires IsBinary(code)
  {
    var dst :- At(m, Arg(ops, 0));
    var src :- At(m, Arg(ops, 1));
    if TypeOf(dst) != Register || TypeOf(src) != Register then
      Raised(m, UnsupportedOperation(NotRegisters(code, TypeOf(dst), TypeOf(src))))
    else
      var d :- At(m, AsReg(Enclosed(dst)));
      var s :- At(m, AsReg(Enclosed(src)));
      if Read(m, d).dtype != Read(m, s).dtype then
        Raised(m, UnsupportedOperation(Mismatch(code, Read(m, s).dtype, Read(m, d).dtype)))
      else Done((dst, d, s))
  }

  function NotRegisters(code: Opcode, dst: DataType, src: DataType): string
    requires IsBinary(code)
  {
    Title(code) + ": An operand does not name a register; dst=" + Name(dst) + ", src=" + Name(src)
  }

  function Mismatch(code: Opcode, from: DataType, to: DataType): string
    requires IsBinary(code)
  {
    Title(code) + ": Type mismatch, unable to convert from " + Name(from) + " to " + Name(to)
  }

  /** The exact result of `Math.addExact`, `subtractExact` or `multiplyExact`. */
  function Exact(code: Opcode, a: int32, b: int32): int
  {
    if code == ADD then a + b else if code == SUB then a - b else a * b
  }

  /** ADD, SUB and MULT: on Int4 registers the wrapped result goes to dst,
      whose type stays; OF is set when the exact result overflows. */
  function Arith(code: Opcode, m: Machine, ops: Option<seq<Operand>>): Outcome<Machine>
    requires code == ADD || code == SUB || code == MULT
  {
    var regs :- Registers2(code, m, ops);
    var (dst, d, s) := regs;
    if Read(m, d).dtype != Int4 then Raised(m, UnsupportedOperation(Title(code) + ": Unsupported type " + Name(TypeOf(dst))))
    else
      var a :- At(m, AsInt(Read(m, d).value));
      var b :- At(m, AsInt(Read(m, s).value));
      var res := Wrap(Exact(code, a, b));
      Done(Write(m.(flags := Flags(res == 0, res < 0, !InRange(Exact(code, a, b)))), d, SetInt(Read(m, d), res)))
  }

  /** DIV: the truncated quotient goes to dst, then the remainder to R4, each
      register keeping its type; OF is cleared. */
  function Div(m: Machine, ops: Option<seq<Operand>>): Outcome<Machine>
  {
    var regs :- Registers2(DIV, m, ops);
    var (dst, d, s) := regs;
    if Read(m, d).dtype != Int4 then Raised(m, UnsupportedOperation("DIVIDE: Unsupported type " + Name(TypeOf(dst))))
    else
      var a :- At(m, AsInt(Read(m, d).value));
      var b :- At(m, AsInt(Read(m, s).value));
      if b == 0 then Raised(m, ArithmeticException("/ by zero"))
      else
        var q := IntDiv(a, b);
        var m1 := Write(m.(flags := Flags(q == 0, q < 0, false)), d, SetInt(Read(m, d), q));
        Done(Write(m1, R4, SetInt(Read(m1, R4), IntRem(a, b))))
  }

  /** EXP: `(int) Math.pow(dst, src)` goes to dst; the flags stay. */
  function Exp(m: Machine, ops: Option<seq<Operand>>): Outcome<Machine>
  {
    var regs :- Registers2(EXP, m, ops);
    var (dst, d, s) := regs;
    if Read(m, d).dtype != Int4 then Raised(m, UnsupportedOperation("EXP: Unsupported type " + Name(TypeOf(dst))))
    else
      var a :- At(m, AsInt(Read(m, d).value));
      var b :- At(m, AsInt(Read(m, s).value));
      Done(Write(m, d, SetInt(Read(m, d), IntPow(a, b))))
  }

  /** NEG: negates an Int4 register. */
  function Neg(m: Machine, ops: Option<seq<Operand>>): Outcome<Machine>
  {
    var op :- At(m, Arg(ops, 0));
    var r :- At(m, AsReg(Enclosed(op)));
    if Read(m, r).dtype != Int4 then Raised(m, UnsupportedOperation("NEGATION: Unsupported type " + Name(TypeOf(op))))
    else
      var a :- At(m, AsInt(Read(m, r).value));
      Done(Write(m, r, SetInt(Read(m, r), Negate(a))))
  }

  /** SAR, SAL, SLR and SLL: the shift count is cast to a byte, which fails,
      so the shift itself is never reached. */
  function Shift(m: Machine, ops: Option<seq<Operand>>): Outcome<Machine>
  {
    var dst :- At(m, Arg(ops, 0));
    var mutator :- At(m, Arg(ops, 1));
    var d :- At(m, AsReg(Enclosed(dst)));
    Raised(m, ByteCast(Enclosed(mutator)))
  }

  /** PUSH: a copy of the register's value and type goes on the stack. */
  function Push(m: Machine, ops: Option<seq<Operand>>): Outcome<Machine>
  {
    var src :- At(m, Arg(ops, 0));
    var s :- At(m, AsReg(Enclosed(src)));
    var p := Stacks.PushOn(m.slots, m.sp, Read(m, s));
    var m' := m.(slots := p.slots, sp := p.sp);
    if p.e.Some? then Raised(m', p.e.value) else Done(m')
  }

  /** POP: the popped value and type go to the register, after the stack
      pointer was lowered. */
  function Pop(m: Machine, ops: Option<seq<Operand>>): Outcome<Machine>
  {
    var dst :- At(m, Arg(ops, 0));
    var d :- At(m, AsReg(Enclosed(dst)));
    var p := Stacks.PopOff(m.slots, m.sp);
    var m' := m.(sp := p.sp);
    var c :- At(m', p.r);
    Done(Write(m', d, c))
  }

  /** CMP: sets the flags from the difference of two Int4 registers. */
  function Cmp(m: Machine, ops: Option<seq<Operand>>): Outcome<Machine>
  {
    var op0 :- At(m, Arg(ops, 0));
    var l :- At(m, AsReg(Enclosed(op0)));
    var op1 :- At(m, Arg(ops, 1));
    var r :- At(m, AsReg(Enclosed(op1)));
    if Read(m, l).dtype != Read(m, r).dtype then
      Raised(m, UnsupportedOperation("CMP: Unsupported comparison between types: op1="
        + Name(Read(m, l).dtype) + ", op2=" + Name(Read(m, r).dtype)))
    else if Read(m, l).dtype != Int4 then Raised(m, UnsupportedOperation("CMP: Unsupported type " + Name(Read(m, l).dtype)))
    else
      var a :- At(m, AsInt(Read(m, l).value));
      var b :- At(m, AsInt(Read(m, r).value));
      var diff := a as int - b as int;
      var res := Wrap(diff);
      Done(m.(flags := Flags(res == 0, res < 0, !InRange(diff))))
  }

  predicate IsLogic(code: Opcode) { code == TEST || code == OR || code == XOR || code == AND }

  function BitOp(code: Opcode, a: int32, b: int32): int32
  {
    if code == OR then BitOr(a, b) else if code == XOR then BitXor(a, b) else BitAnd(a, b)
  }

  /** The right-hand side of a bitwise instruction: an Int4 register's value
      or an int immediate. */
  function RightHand(m: Machine, op1: Operand): Outcome<Value>
  {
    if TypeOf(op1) == Register then
      var r :- At(m, AsReg(Enclosed(op1)));
      if Read(m, r).dtype != Int4 then
        Raised(m, UnsupportedOperation("TEST: Unsupported right-hand operand type " + Name(Read(m, r).dtype)))
      else Done(Read(m, r).value)
    else if TypeOf(op1) == Imm_Int4 then Done(Enclosed(op1))
    else Raised(m, UnsupportedOperation("TEST: Unsupported right-hand operand type " + Name(TypeOf(op1))))
  }

  /** TEST, OR, XOR and AND: ZF and SF from the bitwise result, OF cleared;
      all but TEST store the result in the left-hand register. */
  function Logic(code: Opcode, m: Machine, ops: Option<seq<Operand>>): Outcome<Machine>
    requires IsLogic(code)
  {
    var op0 :- At(m, Arg(ops, 0));
    var l :- At(m, AsReg(Enclosed(op0)));
    if Read(m, l).dtype != Int4 then
      Raised(m, UnsupportedOperation("TEST: Unsupported left-hand operand type " + Name(Read(m, l).dtype)))
    else
      var op1 :- At(m, Arg(ops, 1));
      var rhs :- RightHand(m, op1);
      var a :- At(m, AsInt(Read(m, l).value));
      var b :- At(m, AsInt(rhs));
      var res := BitOp(code, a, b);
      var m1 := m.(flags := Flags(res == 0, res < 0, false));
      Done(if code == TEST then m1 else Write(m1, l, SetInt(Read(m, l), res)))
  }

  predicate IsJump(code: Opcode) { code == JMP || code == JL || code == JLE || code == JG || code == JGE || code == JE || code == JNE }

  /** Whether a jump's condition holds. */
  predicate Taken(code: Opcode, f: Flags)
  {
    match code
    case JMP => true
    case JL => f.sf != f.of
    case JLE => f.zf || f.sf != f.of
    case JG => !f.zf && f.sf == f.of
    case JGE => f.sf == f.of
    case JE => f.zf
    case JNE => !f.zf
    case _ => false
  }

  /** A jump whose condition holds sets IP to the instruction's own address
      plus the offset, keeping IP's type. */
  function Jump(code: Opcode, m: Machine, addr: int32, ops: Option<seq<Operand>>): Outcome<Machine>
  {
    if Taken(code, m.flags) then
      var op0 :- At(m, Arg(ops, 0));
      var offset :- At(m, AsInt(Enclosed(op0)));
      Done(Write(m, IP, SetInt(Read(m, IP), Wrap(addr + offset))))
    else Done(m)
  }

  /** SETL: when SF != OF the byte operand is cast, which fails. */
  function SetL(m: Machine, ops: Option<seq<Operand>>): Outcome<Machine>
  {
    if m.flags.sf != m.flags.of then
      var op0 :- At(m, Arg(ops, 0));
      var d :- At(m, AsReg(Enclosed(op0)));
      var op1 :- At(m, Arg(ops, 1));
      Raised(m, ByteCast(Enclosed(op1)))
    else Done(m)
  }

  /** What `sendToConsole` appends for a register: an Int4 in decimal, an
      Imm_Str as it is. */
  function Printed(m: Machine, c: Cell): Outcome<string>
  {
    if c.dtype == Int4 then
      var n :- At(m, AsInt(c.value));
      Done(DecimalString(n))
    else if c.dtype == Imm_Str then At(m, AsText(c.value))
    else Raised(m, UnsupportedOperation("PRINT: Not supported for type " + Name(c.dtype)))
  }

  /** PRNT: appends the register to the console. */
  function Prnt(m: Machine, ops: Option<seq<Operand>>): Outcome<Machine>
  {
    var src :- At(m, Arg(ops, 0));
    var s :- At(m, AsReg(Enclosed(src)));
    var text :- Printed(m, Read(m, s));
    if m.console.None? then Raised(m, NullPointer)
    else Done(m.(console := Some(m.console.value + text)))
  }

  /** CLR: empties the console and sets R1 to an empty string. */
  function Clr(m: Machine): Outcome<Machine>
  {
    if m.console.None? then Raised(m, NullPointer)
    else Done(Write(m.(console := Some("")), R1, Cell(StrV(""), Imm_Str)))
  }

  /** A label body that ends in `break` takes no jump. */
  function Plain(o: Outcome<Machine>): Outcome<(Machine, bool)>
  {
    match o
    case Done(m) => Done((m, false))
    case Raised(at, e) => Raised(at, e)
  }

  /** The last `n` of the shift labels, SAR, SAL, SLR and SLL, each running
      into the next, and the last into PUSH. */
  function Shifts(n: nat, m: Machine, ops: Option<seq<Operand>>): Outcome<Machine>
  {
    if n == 0 then Push(m, ops)
    else
      var m1 :- Shift(m, ops);
      Shifts(n - 1, m1, ops)
  }

  const LOGIC: seq<Opcode> := [TEST, OR, XOR, AND]
  const JUMPS: seq<Opcode> := [JMP, JL, JLE, JG, JGE, JE, JNE]

  /** The bitwise labels from LOGIC[i] on, the last running into JMP. */
  function Logics(i: nat, m: Machine, addr: int32, ops: Option<seq<Operand>>): Outcome<(Machine, bool)>
    requires i <= |LOGIC|
    decreases |LOGIC| - i
  {
    if i == |LOGIC| then Jumps(0, m, addr, ops, false)
    else
      var m1 :- Logic(LOGIC[i], m, ops);
      Logics(i + 1, m1, addr, ops)
  }

  /** The jump labels from JUMPS[i] on, the last running into SETL. Gives the
      state and whether some jump was taken. */
  function Jumps(i: nat, m: Machine, addr: int32, ops: Option<seq<Operand>>, jumped: bool): Outcome<(Machine, bool)>
    requires i <= |JUMPS|
    decreases |JUMPS| - i
  {
    if i == |JUMPS| then FromSetL(m, ops, jumped)
    else
      var m1 :- Jump(JUMPS[i], m, addr, ops);
      Jumps(i + 1, m1, addr, ops, jumped || Taken(JUMPS[i], m.flags))
  }

  /** SETL running into PRNT, which ends in `break`. */
  function FromSetL(m: Machine, ops: Option<seq<Operand>>, jumped: bool): Outcome<(Machine, bool)>
  {
    var m1 :- SetL(m, ops);
    var m2 :- Prnt(m1, ops);
    Done((m2, jumped))
  }

  /** The `switch` on the opcode: the labels from the instruction's own on,
      each body without `break` running into the next label. SETLE to SETNE
      have no label and do nothing. Gives the state and whether a jump was
      taken. */
  function Dispatch(code: Opcode, m: Machine, addr: int32, ops: Option<seq<Operand>>): Outcome<(Machine, bool)>
  {
    match code
    case MOV => Plain(Mov(m, ops))
    case ADD => Plain(Arith(ADD, m, ops))
    case SUB => Plain(Arith(SUB, m, ops))
    case MULT => Plain(Arith(MULT, m, ops))
    case DIV => Plain(Div(m, ops))
    case EXP => Plain(Exp(m, ops))
    case NEG => var m1 :- Neg(m, ops); Plain(Shifts(4, m1, ops))
    case SAR => Plain(Shifts(4, m, ops))
    case SAL => Plain(Shifts(3, m, ops))
    case SLR => Plain(Shifts(2, m, ops))
    case SLL => Plain(Shifts(1, m, ops))
    case PUSH => Plain(Push(m, ops))
    case POP => Plain(Pop(m, ops))
    case CMP => var m1 :- Cmp(m, ops); Logics(0, m1, addr, ops)
    case TEST => Logics(0, m, addr, ops)
    case OR => Logics(1, m, addr, ops)
    case XOR => Logics(2, m, addr, ops)
    case AND => Logics(3, m, addr, ops)
    case JMP => Jumps(0, m, addr, ops, false)
    case JL => Jumps(1, m, addr, ops, false)
    case JLE => Jumps(2, m, addr, ops, false)
    case JG => Jumps(3, m, addr, ops, false)
    case JGE => Jumps(4, m, addr, ops, false)
    case JE => Jumps(5, m, addr, ops, false)
    case JNE => Jumps(6, m, addr, ops, false)
    case SETL => FromSetL(m, ops, false)
    case PRNT => Plain(Prnt(m, ops))
    case CLR => Plain(Clr(m))
    case _ => Done((m, false))
  }

  /** One turn of the `execute` loop on the instruction at `addr`: the
      dispatch, then IP moves to the next address unless a jump was taken. */
  function Exec(m: Machine, addr: int32, instr: Instruction): Outcome<Machine>
  {
    var r :- Dispatch(instr.code, m, addr, instr.operands);
    if r.1 then Done(r.0) else Done(Write(r.0, IP, SetInt(Read(r.0, IP), Wrap(addr + 1))))
  }

  /** The address IP holds, as the loop's measure. */
  function Pc(m: Machine): int
  {
    if m.bank.ip.value.IntV? then m.bank.ip.value.n else 0
  }

  /** `execute`: run the instruction IP names while IP is below the program's
      length. Ends normally, or with the exception an instruction threw. */
  function Run(m: Machine, program: Option<seq<Instruction>>): Outcome<Machine>
    requires program.Some? ==> |program.value| <= MAX_INT
    decreases if program.Some? then |program.value| - Pc(m) else 0
  {
    var addr :- At(m, AsInt(m.bank.ip.value));
    if program.None? then Raised(m, NullPointer)
    else if addr >= |program.value| then Done(m)
    else if addr < 0 then Raised(m, IndexOutOfBounds(addr))
    else
      var m1 :- Exec(m, addr, program.value[addr]);
      ExecAdvances(m, addr, program.value[addr]);
      Run(m1, program)
  }

  /** The first operand is there and encloses an int. */
  predicate IntFirst(ops: Option<seq<Operand>>)
  {
    Arg(ops, 0).Ok? && Enclosed(Arg(ops, 0).value).IntV?
  }

  /** Once a jump is taken its offset operand encloses an int, which the
      `(RegId)` casts of SETL and PRNT reject: the jump labels never complete
      with a jump taken. */
  lemma {:induction false} JumpsNeverComplete(i: nat, m: Machine, addr: int32, ops: Option<seq<Operand>>, jumped: bool)
    requires i <= |JUMPS|
    requires jumped ==> IntFirst(ops)
    ensures Jumps(i, m, addr, ops, jumped).Done? ==> !Jumps(i, m, addr, ops, jumped).value.1
    decreases |JUMPS| - i
  {
    if i < |JUMPS| {
      var c := Jump(JUMPS[i], m, addr, ops);
      if c.Done? {
        JumpsNeverComplete(i + 1, c.value, addr, ops, jumped || Taken(JUMPS[i], m.flags));
      }
    }
  }

  /** Every instruction that completes leaves IP at the next address: no jump
      ever completes. */
  lemma ExecAdvances(m: Machine, addr: int32, instr: Instruction)
    ensures Exec(m, addr, instr).Done? ==>
      Exec(m, addr, instr).value.bank.ip.value == IntV(Wrap(addr + 1))
  {
    var ops := instr.operands;
    match instr.code
    case CMP =>
      var c := Cmp(m, ops);
      if c.Done? {
        LogicsNeverJump(0, c.value, addr, ops);
      }
    case TEST => LogicsNeverJump(0, m, addr, ops);
    case OR => LogicsNeverJump(1, m, addr, ops);
    case XOR => LogicsNeverJump(2, m, addr, ops);
    case AND => LogicsNeverJump(3, m, addr, ops);
    case JMP => JumpsNeverComplete(0, m, addr, ops, false);
    case JL => JumpsNeverComplete(1, m, addr, ops, false);
    case JLE => JumpsNeverComplete(2, m, addr, ops, false);
    case JG => JumpsNeverComplete(3, m, addr, ops, false);
    case JGE => JumpsNeverComplete(4, m, addr, ops, false);
    case JE => JumpsNeverComplete(5, m, addr, ops, false);
    case JNE => JumpsNeverComplete(6, m, addr, ops, false);
    case _ =>
  }

  lemma {:induction false} LogicsNeverJump(i: nat, m: Machine, addr: int32, ops: Option<seq<Operand>>)
    requires i <= |LOGIC|
    ensures Logics(i, m, addr, ops).Done? ==> !Logics(i, m, addr, ops).value.1
    decreases |LOGIC| - i
  {
    if i == |LOGIC| {
      JumpsNeverComplete(0, m, addr, ops, false);
    } else {
      var c := Logic(LOGIC[i], m, ops);
      if c.Done? {
        LogicsNeverJump(i + 1, c.value, addr, ops);
      }
    }
  }

  /** The first operand is there and names a register. */
  predicate RegFirst(ops: Option<seq<Operand>>)
  {
    Arg(ops, 0).Ok? && Enclosed(Arg(ops, 0).value).RegName?
  }

  /** The bitwise labels never complete: once AND is done, JMP casts the
      first operand, a register name, to an int. */
  lemma {:induction false} LogicsRaise(i: nat, m: Machine, addr: int32, ops: Option<seq<Operand>>)
    requires i <= |LOGIC|
    requires i == |LOGIC| ==> RegFirst(ops)
    ensures Logics(i, m, addr, ops).Raised?
    decreases |LOGIC| - i
  {
    if i < |LOGIC| {
      var c := Logic(LOGIC[i], m, ops);
      if c.Done? {
        LogicsRaise(i + 1, c.value, addr, ops);
      }
    }
  }

  /** With an int first operand the jump labels never complete: SETL or PRNT
      casts it to a register name. */
  lemma {:induction false} JumpsRaiseOnInt(i: nat, m: Machine, addr: int32, ops: Option<seq<Operand>>, jumped: bool)
    requires i <= |JUMPS| && IntFirst(ops)
    ensures var r := Jumps(i, m, addr, ops, jumped); r.Raised? && r.e == ClassCast
    decreases |JUMPS| - i
  {
    if i < |JUMPS| {
      var c := Jump(JUMPS[i], m, addr, ops);
      if c.Done? {
        JumpsRaiseOnInt(i + 1, c.value, addr, ops, jumped || Taken(JUMPS[i], m.flags));
      }
    }
  }

  /** CMP, TEST, OR, XOR and AND run on into the jumps and never complete. */
  lemma CompareNeverCompletes(m: Machine, addr: int32, code: Opcode, ops: Option<seq<Operand>>)
    requires code == CMP || IsLogic(code)
    ensures Exec(m, addr, Instruction(code, ops)).Raised?
  {
    match code
    case CMP =>
      var c := Cmp(m, ops);
      if c.Done? {
        LogicsRaise(0, c.value, addr, ops);
      }
    case TEST => LogicsRaise(0, m, addr, ops);
    case OR => LogicsRaise(1, m, addr, ops);
    case XOR => LogicsRaise(2, m, addr, ops);
    case AND => LogicsRaise(3, m, addr, ops);
  }

  /** JMP with an int offset sets IP to its own address plus the offset and
      then fails on PRNT's or SETL's cast, leaving IP there. */
  lemma JmpNeverCompletes(m: Machine, addr: int32, k: int32)
    ensures var r := Exec(m, addr, Instruction(JMP, Some([ImmInt(k)])));
      r.Raised? && r.e == ClassCast && r.at.bank.ip == SetInt(m.bank.ip, Wrap(addr + k))
  {
    JmpLabelRaises(m, addr, k);
  }

  /** The same from JMP's label on: the jump is taken, and the labels after
      it keep IP and fail. */
  lemma JmpLabelRaises(m: Machine, addr: int32, k: int32)
    ensures var r := Jumps(0, m, addr, Some([ImmInt(k)]), false);
      r.Raised? && r.e == ClassCast && r.at.bank.ip == SetInt(m.bank.ip, Wrap(addr + k))
  {
    var ops := Some([ImmInt(k)]);
    var m1 := Write(m, IP, SetInt(Read(m, IP), Wrap(addr + k)));
    assert Jump(JMP, m, addr, ops) == Done(m1);
    assert m1.bank.ip == SetInt(m.bank.ip, Wrap(addr + k)) == SetInt(m1.bank.ip, Wrap(addr + k));
    JumpsRaiseOnInt(1, m1, addr, ops, true);
    JumpsKeepIp(1, m1, addr, ops, true);
  }

  /** The conditional jumps after JMP only ever set IP to the same target. */
  lemma {:induction false} JumpsKeepIp(i: nat, m: Machine, addr: int32, ops: Option<seq<Operand>>, jumped: bool)
    requires 1 <= i <= |JUMPS| && ops.Some? && |ops.value| == 1 && ops.value[0].ImmInt?
    requires m.bank.ip == SetInt(m.bank.ip, Wrap(addr + ops.value[0].n))
    ensures Jumps(i, m, addr, ops, jumped).Raised? ==> Jumps(i, m, addr, ops, jumped).at.bank.ip == m.bank.ip
    decreases |JUMPS| - i
  {
    if i < |JUMPS| {
      var c := Jump(JUMPS[i], m, addr, ops);
      if c.Done? {
        JumpsKeepIp(i + 1, c.value, addr, ops, jumped || Taken(JUMPS[i], m.flags));
      }
    }
  }

  /** NEG never completes. On a one-operand NEG of an Int4 register the
      register is negated and the fall into SAR then fails reading the second
      operand; with more operands SAR's byte cast fails. */
  lemma NegNeverCompletes(m: Machine, addr: int32, ops: Option<seq<Operand>>)
    ensures Exec(m, addr, Instruction(NEG, ops)).Raised?
    ensures forall r: RegId, n: int32 :: ops == Some([Reg(r)]) && Read(m, r) == Cell(IntV(n), Int4) ==>
      Exec(m, addr, Instruction(NEG, ops)) == Raised(Write(m, r, Cell(IntV(Negate(n)), Int4)), IndexOutOfBounds(1))
  {
  }

  /** The shifts never complete: their count is cast to a byte. */
  lemma ShiftsNeverComplete(m: Machine, addr: int32, code: Opcode, ops: Option<seq<Operand>>)
    requires code == SAR || code == SAL || code == SLR || code == SLL
    ensures Exec(m, addr, Instruction(code, ops)).Raised?
    ensures ops.Some? && |ops.value| >= 2 && ops.value[0].Reg? ==>
      Exec(m, addr, Instruction(code, ops)) == Raised(m, ClassCast)
  {
  }

  /** Everything but the registers is as it was. */
  predicate SameBut(m': Machine, m: Machine)
  {
    m'.flags == m.flags && m'.slots == m.slots && m'.store == m.store && m'.console == m.console
  }

  /** Register to register: the destination gets the source's value and type,
      and nothing else changes. */
  lemma MovRegister(m: Machine, d: RegId, s: RegId)
    ensures var r := Mov(m, Some([Reg(d), Reg(s)]));
      && r.Done? && Read(r.value, d) == Read(m, s) && SameBut(r.value, m)
      && forall q :: q != d ==> Read(r.value, q) == Read(m, q)
  {
  }

  /** An int immediate arrives typed Int4, a string immediate typed Imm_Str. */
  lemma MovImmediate(m: Machine, d: RegId, n: int32, text: string)
    ensures var r := Mov(m, Some([Reg(d), ImmInt(n)]));
      r.Done? && Read(r.value, d) == Cell(IntV(n), Int4) && SameBut(r.value, m)
    ensures var r := Mov(m, Some([Reg(d), ImmStr(text)]));
      r.Done? && Read(r.value, d) == Cell(StrV(text), Imm_Str) && SameBut(r.value, m)
  {
  }

  /** A move to an immediate, a literal or a reference to a reference, and a
      store from a register of another type, are rejected before anything
      changes. */
  lemma MovRejects(m: Machine, dst: Operand, src: Operand)
    ensures TypeOf(dst) == Imm_Int4 || TypeOf(dst) == Imm_Str ==>
      Mov(m, Some([dst, src])) == Raised(m, UnsupportedOperation(MOV_TO_IMMEDIATE))
    ensures dst.Ref? && !(dst.dtype in {Imm_Int4, Imm_Str, Register}) && (src.ImmInt? || src.ImmStr?) ==>
      Mov(m, Some([dst, src])) == Raised(m, UnsupportedOperation(MOV_LITERAL))
    ensures dst.Ref? && !(dst.dtype in {Imm_Int4, Imm_Str, Register}) && src.Ref? && !(src.dtype in {Imm_Int4, Imm_Str, Register}) ==>
      Mov(m, Some([dst, src])) == Raised(m, UnsupportedOperation(MOV_MEMORY))
    ensures dst.Ref? && !(dst.dtype in {Imm_Int4, Imm_Str, Register}) && src.Reg? && Read(m, src.id).dtype != dst.dtype ==>
      Mov(m, Some([dst, src])) == Raised(m, UnsupportedOperation(MOV_MISMATCH))
  {
  }

  /** Storing an Int4 register into a variable and moving the variable back
      into a register gives the register's value and type back. */
  lemma MovStoreThenLoad(m: Machine, s: RegId, d: RegId, offset: int32, v: int32)
    requires Read(m, s) == Cell(IntV(v), Int4)
    requires 0 <= offset && offset + 4 <= |m.store|
    ensures var stored := Mov(m, Some([Ref(Int4, offset), Reg(s)]));
      && stored.Done? && stored.value.store == Put(m.store, offset, Encode(v)).0
      && var loaded := Mov(stored.value, Some([Reg(d), Ref(Int4, offset)]));
      loaded.Done? && Read(loaded.value, d) == Read(m, s)
  {
    LoadStored(m.store, offset, v);
  }

  /** ADD, SUB and MULT on two Int4 registers holding ints: the destination
      gets the wrapped result and keeps Int4; OF is set exactly when wrapping
      changed the result; ZF and SF follow the stored result; no other
      register changes. */
  lemma ArithInt4(code: Opcode, m: Machine, d: RegId, s: RegId, a: int32, b: int32)
    requires code == ADD || code == SUB || code == MULT
    requires Read(m, d) == Cell(IntV(a), Int4) && Read(m, s) == Cell(IntV(b), Int4)
    ensures var x := Exact(code, a, b);
      var r := Arith(code, m, Some([Reg(d), Reg(s)]));
      && r.Done? && Read(r.value, d) == Cell(IntV(Wrap(x)), Int4)
      && (r.value.flags.of <==> Wrap(x) != x)
      && r.value.flags.zf == (Wrap(x) == 0) && r.value.flags.sf == (Wrap(x) < 0)
      && (forall q :: q != d ==> Read(r.value, q) == Read(m, q))
      && r.value.slots == m.slots && r.value.store == m.store && r.value.console == m.console
  {
    var x := Exact(code, a, b);
    ArithWrites(code, m, d, s, a, b);
    WrapChangesIffOverflow(x);
  }

  /** The register-to-register form of ADD, SUB and MULT on Int4 values writes
      the flags of the wrapped result, then the result into dst. */
  lemma ArithWrites(code: Opcode, m: Machine, d: RegId, s: RegId, a: int32, b: int32)
    requires code == ADD || code == SUB || code == MULT
    requires Read(m, d) == Cell(IntV(a), Int4) && Read(m, s) == Cell(IntV(b), Int4)
    ensures var x := Exact(code, a, b);
      Arith(code, m, Some([Reg(d), Reg(s)]))
        == Done(Write(m.(flags := Flags(Wrap(x) == 0, Wrap(x) < 0, !InRange(x))), d, SetInt(Read(m, d), Wrap(x))))
  {
    RegistersRead(code, m, d, s);
  }

  /** A two-register instruction with an operand that is not a register, or
      with registers of different types, fails before anything changes. */
  lemma BinaryRejects(code: Opcode, m: Machine, dst: Operand, src: Operand)
    requires IsBinary(code)
    ensures TypeOf(dst) != Register || TypeOf(src) != Register ==>
      Registers2(code, m, Some([dst, src])) == Raised(m, UnsupportedOperation(NotRegisters(code, TypeOf(dst), TypeOf(src))))
    ensures dst.Reg? && src.Reg? && Read(m, dst.id).dtype != Read(m, src.id).dtype ==>
      Registers2(code, m, Some([dst, src])) == Raised(m, UnsupportedOperation(Mismatch(code, Read(m, src.id).dtype, Read(m, dst.id).dtype)))
  {
    if dst.Reg? && src.Reg? {
      RegistersRead(code, m, dst.id, src.id);
    }
  }

  /** Two register operands are read as their registers. */
  lemma RegistersRead(code: Opcode, m: Machine, d: RegId, s: RegId)
    requires IsBinary(code)
    ensures Read(m, d).dtype != Read(m, s).dtype ==>
      Registers2(code, m, Some([Reg(d), Reg(s)])) == Raised(m, UnsupportedOperation(Mismatch(code, Read(m, s).dtype, Read(m, d).dtype)))
    ensures Read(m, d).dtype == Read(m, s).dtype ==> Registers2(code, m, Some([Reg(d), Reg(s)])) == Done((Reg(d), d, s))
  {
  }

  /** DIV of two distinct Int4 registers, neither of them R4: the quotient,
      rounded toward zero, goes to the destination and the remainder, with
      the dividend's sign, to R4; they recompose the dividend unless the
      quotient wrapped, which happens only for MIN_INT / -1. A zero divisor
      fails before anything changes. */
  lemma DivInt4(m: Machine, d: RegId, s: RegId, a: int32, b: int32)
    requires d != s && d != R4 && s != R4
    requires Read(m, d) == Cell(IntV(a), Int4) && Read(m, s) == Cell(IntV(b), Int4)
    ensures b == 0 ==> Div(m, Some([Reg(d), Reg(s)])) == Raised(m, ArithmeticException("/ by zero"))
    ensures b != 0 ==>
      var r := Div(m, Some([Reg(d), Reg(s)]));
      && r.Done? && Read(r.value, d) == Cell(IntV(IntDiv(a, b)), Int4)
      && Read(r.value, R4) == SetInt(Read(m, R4), Rem(a, b))
      && (!(a == MIN_INT && b == -1) ==> a == b * IntDiv(a, b) + Rem(a, b))
      && Abs(Rem(a, b)) < Abs(b)
      && r.value.flags == Flags(IntDiv(a, b) == 0, IntDiv(a, b) < 0, false)
  {
    DivWrites(m, d, s, a, b);
    if b != 0 {
      var q := IntDiv(a, b);
      var m1 := Write(m.(flags := Flags(q == 0, q < 0, false)), d, SetInt(Read(m, d), q));
      var m2 := Write(m1, R4, SetInt(Read(m, R4), Rem(a, b)));
      assert Read(m2, d) == Read(m1, d) == Cell(IntV(q), Int4);
      DivRecomposes(a, b);
    }
  }

  /** The machine DIV leaves behind on two distinct Int4 registers. */
  lemma DivWrites(m: Machine, d: RegId, s: RegId, a: int32, b: int32)
    requires d != s && d != R4 && s != R4
    requires Read(m, d) == Cell(IntV(a), Int4) && Read(m, s) == Cell(IntV(b), Int4)
    ensures b == 0 ==> Div(m, Some([Reg(d), Reg(s)])) == Raised(m, ArithmeticException("/ by zero"))
    ensures b != 0 ==> var q := IntDiv(a, b); var m1 := Write(m.(flags := Flags(q == 0, q < 0, false)), d, SetInt(Read(m, d), q));
      Div(m, Some([Reg(d), Reg(s)])) == Done(Write(m1, R4, SetInt(Read(m, R4), Rem(a, b))))
  {
    RegistersRead(DIV, m, d, s);
  }

  /** Java's quotient and remainder recompose the dividend unless the
      quotient wrapped. */
  lemma DivRecomposes(a: int32, b: int32)
    requires b != 0
    ensures !(a == MIN_INT && b == -1) ==> a == b * IntDiv(a, b) + Rem(a, b)
    ensures Abs(Rem(a, b)) < Abs(b)
  {
    QuotRem(a, b);
    IntDivOverflowsOnlyAtMin(a, b);
  }

  /** PUSH of a register and then POP into another register copies the value
      and type, and gives the stack pointer back. */
  lemma PushThenPopCopies(m: Machine, s: RegId, d: RegId)
    requires Stacks.Sound(m.slots, m.sp) && m.sp.value.n < MAX_INT
    ensures var pushed := Push(m, Some([Reg(s)]));
      && pushed.Done?
      && var popped := Pop(pushed.value, Some([Reg(d)]));
      && popped.Done?
      && Read(popped.value, d) == Read(m, s)
      && (d != SP ==> popped.value.sp == m.sp)
  {
    Stacks.PushOnSound(m.slots, m.sp, Read(m, s));
    Stacks.PushThenPop(m.slots, m.sp, Read(m, s));
  }

  /** POP on an empty stack is an underflow and changes nothing. */
  lemma PopEmpty(m: Machine, d: RegId)
    requires m.sp == Stacks.EMPTY_SP
    ensures Pop(m, Some([Reg(d)])) == Raised(m, RuntimeException("Stack underflow"))
  {
  }

  /** PRNT appends an Int4 register in decimal and an Imm_Str register as it
      is; any other type is rejected, and so is a missing console. */
  lemma PrntAppends(m: Machine, s: RegId)
    ensures var c := Read(m, s); var r := Prnt(m, Some([Reg(s)]));
      && (c.dtype == Int4 && c.value.IntV? && m.console.Some? ==>
            r == Done(m.(console := Some(m.console.value + DecimalString(c.value.n)))))
      && (c.dtype == Imm_Str && c.value.StrV? && m.console.Some? ==>
            r == Done(m.(console := Some(m.console.value + c.value.s))))
      && (c.dtype != Int4 && c.dtype != Imm_Str ==>
            r == Raised(m, UnsupportedOperation("PRINT: Not supported for type " + Name(c.dtype))))
      && (r.Done? ==> m.console.Some?)
  {
  }

  /** CLR empties the console and leaves an empty string in R1, and R1 then
      prints as nothing. */
  lemma ClrEmpties(m: Machine)
    requires m.console.Some?
    ensures var r := Clr(m);
      && r.Done? && r.value.console == Some("") && Read(r.value, R1) == Cell(StrV(""), Imm_Str)
      && Prnt(r.value, Some([Reg(R1)])) == Done(r.value)
  {
    var m1 := Clr(m).value;
    assert m1.console.value + "" == "";
    assert m1.(console := Some("")) == m1;
  }

  /** `getAccumulatorValue`: an Int4 accumulator is appended in decimal, any
      other type appends nothing. */
  function Accumulated(m: Machine, sb: string): Try<string>
  {
    if m.bank.r1.dtype == Int4 then
      match AsInt(m.bank.r1.value)
      case Ok(n) => Ok(sb + DecimalString(n))
      case Thrown(e) => Thrown(e)
    else Ok(sb)
  }

  /** For an Int4 accumulator, PRNT R1 appends to the console exactly what
      `getAccumulatorValue` appends to its builder. */
  lemma AccumulatorMatchesPrint(m: Machine, sb: string)
    requires m.bank.r1.dtype == Int4 && m.console.Some?
    ensures var r := Prnt(m, Some([Reg(R1)]));
      Accumulated(m, sb).Ok? <==> r.Done?
    ensures Prnt(m, Some([Reg(R1)])).Done? ==>
      Accumulated(m, sb).value[|sb|..] == Prnt(m, Some([Reg(R1)])).value.console.value[|m.console.value|..]
  {
  }

  /** A run that ends normally from an address inside the program ends with
      IP at the program's length: every instruction ran once, in order. */
  lemma {:induction false} RunEndsAtLength(m: Machine, program: seq<Instruction>)
    requires |program| <= MAX_INT
    requires m.bank.ip.value.IntV? && 0 <= m.bank.ip.value.n <= |program|
    ensures Run(m, Some(program)).Done? ==> Run(m, Some(program)).value.bank.ip.value == IntV(|program|)
    decreases |program| - m.bank.ip.value.n
  {
    var addr := m.bank.ip.value.n;
    if addr < |program| {
      var r := Exec(m, addr, program[addr]);
      ExecAdvances(m, addr, program[addr]);
      if r.Done? {
        RunEndsAtLength(r.value, program);
      }
    }
  }

  /** How a run ended: normally, or with the exception it threw. */
  function Ending(m: Machine, e: Option<Exception>): Outcome<Machine>
  {
    if e.None? then Done(m) else Raised(m, e.value)
  }

  /** A fresh register: no value, typed Empty. */
  const BLANK: Cell := Cell(Null, Empty)

  /** `VirtualMachine`. SP and BP are the registers the stack was handed, so
      they live in `stack`; variable storage is the shared `memory`. */
  class VirtualMachine {
    var bank: Bank
    var flags: Flags
    var console: Option<string>
    var program: Option<seq<Instruction>>
    const stack: Stacks.VHdwStack
    const memory: StaticMemory

    /** The state instructions work on. */
    function View(): Machine
      reads this, stack, memory
    {
      Machine(stack.sp, stack.bp, bank, flags, stack.slots, memory.store, console)
    }

    /** The flags start clear, IP at 0 typed Imm_Int4, the general registers
        blank, and the stack sets SP and BP to -1; no console and no program
        yet. */
    constructor (memory: StaticMemory)
      ensures this.memory == memory && fresh(stack)
      ensures flags == Flags(false, false, false) && console.None? && program.None?
      ensures bank == Bank(Cell(IntV(0), Imm_Int4), BLANK, BLANK, BLANK, BLANK, BLANK, BLANK, BLANK, BLANK)
      ensures stack.sp == Stacks.EMPTY_SP && stack.bp == Stacks.EMPTY_SP && stack.slots == Stacks.Zeros(Stacks.ALLOC_SZ)
    {
      flags := Flags(false, false, false);
      bank := Bank(Cell(IntV(0), Imm_Int4), BLANK, BLANK, BLANK, BLANK, BLANK, BLANK, BLANK, BLANK);
      console := None;
      program := None;
      this.memory := memory;
      stack := new Stacks.VHdwStack();
    }

    /** `initializeIO`: attaches a console holding `text`. */
    method InitializeIO(text: string)
      modifies this
      ensures console == Some(text)
      ensures bank == old(bank) && flags == old(flags) && program == old(program)
    {
      console := Some(text);
    }

    /** `load`: keeps the program and puts IP back to 0, keeping its type. */
    method Load(instructions: seq<Instruction>)
      requires |instructions| <= MAX_INT
      modifies this
      ensures program == Some(instructions)
      ensures bank == old(bank).(ip := SetInt(old(bank).ip, 0))
      ensures flags == old(flags) && console == old(console)
    {
      program := Some(instructions);
      bank := bank.(ip := SetInt(bank.ip, 0));
    }

    /** Puts a machine state into the fields, the stack and the storage. */
    method Install(m: Machine)
      modifies this, stack, memory
      ensures View() == m
      ensures program == old(program) && memory.nextAddr == old(memory.nextAddr)
    {
      bank := m.bank;
      flags := m.flags;
      console := m.console;
      stack.sp := m.sp;
      stack.bp := m.bp;
      stack.slots := m.slots;
      memory.store := m.store;
    }

    /** `execute`: runs the instruction IP names while IP is below the
        program's length; an exception ends the run with the state the
        instruction left. */
    method Execute() returns (e: Option<Exception>)
      requires program.Some? ==> |program.value| <= MAX_INT
      modifies this, stack, memory
      ensures Ending(View(), e) == Run(old(View()), old(program))
      ensures program == old(program) && memory.nextAddr == old(memory.nextAddr)
    {
      while true
        invariant program == old(program) && memory.nextAddr == old(memory.nextAddr)
        invariant Run(View(), program) == Run(old(View()), program)
        decreases if program.Some? then |program.value| - Pc(View()) else 0
      {
        var m := View();
        var ip := AsInt(bank.ip.value);
        if ip.Thrown? {
          return Some(ip.e);
        }
        var addr := ip.value;
        if program.None? {
          return Some(NullPointer);
        }
        if addr >= |program.value| {
          return None;
        }
        if addr < 0 {
          return Some(IndexOutOfBounds(addr));
        }
        var r := Exec(m, addr, program.value[addr]);
        ExecAdvances(m, addr, program.value[addr]);
        if r.Raised? {
          Install(r.at);
          return Some(r.e);
        }
        Install(r.value);
      }
    }

    /** `getAccumulatorValue`: what the builder holds after R1 is appended to
        it, or the exception the unboxing threw. */
    method GetAccumulatorValue(sb: string) returns (r: Try<string>)
      ensures r == Accumulated(View(), sb)
      ensures bank.r1.dtype != Int4 ==> r == Ok(sb)
      ensures bank.r1.dtype == Int4 && bank.r1.value.IntV? ==> r == Ok(sb + DecimalString(bank.r1.value.n))
    {
      r := Ok(sb);
      if bank.r1.dtype == Int4 {
        var n := AsInt(bank.r1.value);
        if n.Thrown? {
          return Thrown(n.e);
        }
        r := Ok(sb + DecimalString(n.value));
      }
    }
  }
}
