/**
 * The older virtual machine: eight registers kept as register stores (a
 * value, its type and a symbol-reference flag), a `java.util.Stack` of
 * register stores and a console. `execute` runs the loaded instructions in
 * order, with no instruction pointer, and then prints R1.
 *
 * One instruction's effect is the function `Step` on a machine state; the
 * `VirtualMachine` class keeps that state in its fields and its `Execute`
 * loop applies `Step` to them.
 */
module LegacyMachines {
  import opened JavaInt
  import opened DataTypes
  import opened Exceptions
  import opened Instructions
  import opened LegacyInstructions

  /** `VRegisterStore`: a value, its type, and whether the value names a
      variable whose content is in storage. */
  datatype Store = Store(value: Value, dtype: DataType, isRef: bool)

  /** A fresh register store: null, Empty, no reference. */
  const EMPTY: Store := Store(Null, Empty, false)

  /** `Register.id()`: R1 to R8 are numbered 0 to 7. */
  function Id(r: GeneralReg): (k: nat)
    ensures k < 8
  {
    if r == R1 then 0 else if r == R2 then 1 else if r == R3 then 2
    else if r == R4 then 3 else if r == R5 then 4 else if r == R6 then 5
    else if r == R7 then 6 else 7
  }

  /** Distinct registers have distinct ids, so each has its own store. */
  lemma IdInjective(r: GeneralReg, q: GeneralReg)
    ensures Id(r) == Id(q) <==> r == q
  {
  }

  /** The register stores by id, the stack (its top last) and the console
      text, None before a console is attached. */
  datatype Machine = Machine(regs: seq<Store>, stack: seq<Store>, console: Option<string>)

  /** No store, in a register or on the stack, is flagged as a symbol reference. */
  predicate NoRefs(m: Machine)
  {
    (forall k :: 0 <= k < |m.regs| ==> !m.regs[k].isRef)
    && (forall k :: 0 <= k < |m.stack| ==> !m.stack[k].isRef)
  }

  /** Every reachable state: one store for each of the eight ids, none holding
      a symbol reference. The reference branches of MOVE, of the arithmetic
      and of printing test a flag that is false in all of these states. */
  predicate Reachable(m: Machine)
  {
    |m.regs| == 8 && NoRefs(m)
  }

  function Get(m: Machine, r: GeneralReg): Store
    requires |m.regs| == 8
  {
    m.regs[Id(r)]
  }

  /** `set(value, type, isSymbol)` on register `r`: only that store changes. */
  function Set(m: Machine, r: GeneralReg, s: Store): (m': Machine)
    requires |m.regs| == 8
    ensures |m'.regs| == 8 && Get(m', r) == s
    ensures forall q: GeneralReg :: q != r ==> Get(m', q) == Get(m, q)
    ensures m'.stack == m.stack && m'.console == m.console
  {
    m.(regs := m.regs[Id(r) := s])
  }

  /** A result, or the exception thrown and the state the machine was left in. */
  datatype Outcome<T> = Done(value: T) | Raised(at: Machine, e: Exception)
  {
    predicate IsFailure() { Raised? }
    function PropagateFailure<U>(): Outcome<U> requires Raised? { Raised(at, e) }
    function Extract(): T requires Done? { value }
  }

  function At<T>(m: Machine, t: Try<T>): Outcome<T>
  {
    match t
    case Ok(v) => Done(v)
    case Thrown(e) => Raised(m, e)
  }

  /** The state an outcome leaves the machine in is a reachable one. */
  predicate Kept(o: Outcome<Machine>)
  {
    match o
    case Done(m) => Reachable(m)
    case Raised(m, _) => Reachable(m)
  }

  /** A failing step that has not yet changed anything keeps the state. */
  predicate KeptAt<T>(o: Outcome<T>)
  {
    o.Raised? ==> Reachable(o.at)
  }

  /** `(Register) x`: only a name of one of the eight registers casts; the
      cast lets null through and the following `id()` call fails on it. */
  function AsGeneral(v: Value): (r: Try<GeneralReg>)
    ensures r.Ok? <==> v.RegName? && IsGeneral(v.id)
    ensures r.Ok? ==> r.value == v.id
  {
    match v
    case RegName(id) => if IsGeneral(id) then var g: GeneralReg := id; Ok(g) else Thrown(ClassCast)
    case Null => Thrown(NullPointer)
    case _ => Thrown(ClassCast)
  }

  /** `operands.get(i)` on the instruction's operand list. */
  function Nth(ops: seq<Operand>, i: nat): (r: Try<Operand>)
    ensures r.Ok? <==> i < |ops|
    ensures r.Ok? ==> r.value == ops[i]
  {
    if i < |ops| then Ok(ops[i]) else Thrown(IndexOutOfBounds(i))
  }

  const MOVE_TO_NON_REGISTER := "MOV: Only moves to register or reference stored in a register is supported"

  /** MOVE dst, src. A register source is copied into the destination and
      then, falling into the next case, overwritten by the source's register
      name typed Int4; a source that is neither a register nor an immediate
      fails casting the destination register to a variable name. */
  function Move(m: Machine, ops: seq<Operand>): (r: Outcome<Machine>)
    requires Reachable(m)
    ensures Kept(r)
  {
    var dst :- At(m, Nth(ops, 0));
    var src :- At(m, Nth(ops, 1));
    if TypeOf(dst) != Register then Raised(m, UnsupportedOperation(MOVE_TO_NON_REGISTER))
    else if TypeOf(src) == Register then
      var s :- At(m, AsGeneral(Enclosed(src)));
      var d :- At(m, AsGeneral(Enclosed(dst)));
      var copied := Set(m, d, Get(m, s));
      Done(Set(copied, d, Store(Enclosed(src), Int4, false)))
    else if TypeOf(src) == Imm_Int4 then
      var d :- At(m, AsGeneral(Enclosed(dst)));
      Done(Set(m, d, Store(Enclosed(src), Int4, false)))
    else if TypeOf(src) == Imm_Str then
      var d :- At(m, AsGeneral(Enclosed(dst)));
      Done(Set(m, d, Store(Enclosed(src), Imm_Str, false)))
    else
      Raised(m, ClassCast)
  }

  predicate IsArithmetic(code: LegacyOpcode)
  {
    code == LegacyOpcode.ADD || code == SUBTRACT || code == MULTIPLY || code == DIVIDE
  }

  /** The opcode's name, which heads its messages. */
  function Title(code: LegacyOpcode): string
    requires IsArithmetic(code)
  {
    match code
    case ADD => "ADD"
    case SUBTRACT => "SUBTRACT"
    case MULTIPLY => "MULTIPLY"
    case DIVIDE => "DIVIDE"
  }

  /** The checks every arithmetic opcode makes: both operands are registers
      holding values of the same type, and that type is Int4. Gives the two
      registers and their ints. */
  function Operands(code: LegacyOpcode, m: Machine, ops: seq<Operand>): (r: Outcome<(GeneralReg, int32, int32)>)
    requires IsArithmetic(code) && Reachable(m)
    ensures KeptAt(r)
    ensures r.Done? ==> Get(m, r.value.0).dtype == Int4
  {
    var dst :- At(m, Nth(ops, 0));
    var src :- At(m, Nth(ops, 1));
    if TypeOf(dst) != Register || TypeOf(src) != Register then
      Raised(m, UnsupportedOperation(Title(code) + ": An operand does not name a register; dst="
        + Name(TypeOf(dst)) + ", src=" + Name(TypeOf(src))))
    else
      var d :- At(m, AsGeneral(Enclosed(dst)));
      var s :- At(m, AsGeneral(Enclosed(src)));
      var dr, sr := Get(m, d), Get(m, s);
      if dr.dtype != sr.dtype then
        Raised(m, UnsupportedOperation(Title(code) + ": Type mismatch, unable to convert from "
          + Name(sr.dtype) + " to " + Name(dr.dtype)))
      else if dr.dtype != Int4 then
        Raised(m, UnsupportedOperation(Title(code) + ": Unsupported type " + Name(TypeOf(dst))))
      else
        var a :- At(m, AsInt(dr.value));
        var b :- At(m, AsInt(sr.value));
        Done((d, a, b))
  }

  /** ADD, SUBTRACT, MULTIPLY: the destination gets the wrapped Java int result. */
  function Arith(code: LegacyOpcode, m: Machine, ops: seq<Operand>): (r: Outcome<Machine>)
    requires code == LegacyOpcode.ADD || code == SUBTRACT || code == MULTIPLY
    requires Reachable(m)
    ensures Kept(r)
  {
    var (d, a, b) :- Operands(code, m, ops);
    var exact := if code == LegacyOpcode.ADD then a as int + b as int
      else if code == SUBTRACT then a as int - b as int
      else a as int * b as int;
    Done(Set(m, d, Store(IntV(Wrap(exact)), Int4, false)))
  }

  /** DIVIDE: the destination gets the quotient, then R3 the remainder typed
      like the destination; division by zero throws before either is set. */
  function Divide(m: Machine, ops: seq<Operand>): (r: Outcome<Machine>)
    requires Reachable(m)
    ensures Kept(r)
  {
    var (d, a, b) :- Operands(DIVIDE, m, ops);
    if b == 0 then Raised(m, ArithmeticException("/ by zero"))
    else
      var m1 := Set(m, d, Store(IntV(IntDiv(a, b)), Int4, false));
      Done(Set(m1, R3, Store(IntV(IntRem(a, b)), Get(m1, d).dtype, false)))
  }

  /** `m_console.append(text)`: a missing console fails. */
  function Append(m: Machine, text: string): (r: Outcome<Machine>)
    requires Reachable(m)
    ensures Kept(r)
  {
    if m.console.None? then Raised(m, NullPointer)
    else Done(m.(console := Some(m.console.value + text)))
  }

  /** `sendToConsole(r)`: an Int4 prints in decimal, a string immediate as
      itself (null as nothing); other types are refused. */
  function SendToConsole(m: Machine, r: GeneralReg): (o: Outcome<Machine>)
    requires Reachable(m)
    ensures Kept(o)
  {
    var c := Get(m, r);
    if c.dtype == Int4 then
      var n :- At(m, AsInt(c.value));
      Append(m, DecimalString(n))
    else if c.dtype == Imm_Str then
      var text :- At(m, AsText(c.value));
      Append(m, text)
    else Raised(m, UnsupportedOperation("PRINT: Not supported for type " + Name(c.dtype)))
  }

  /** PRINT src. */
  function Print(m: Machine, ops: seq<Operand>): (r: Outcome<Machine>)
    requires Reachable(m)
    ensures Kept(r)
  {
    var src :- At(m, Nth(ops, 0));
    var s :- At(m, AsGeneral(Enclosed(src)));
    SendToConsole(m, s)
  }

  /** POP dst, then (falling through) PRINT dst: an empty stack fails. */
  function Pop(m: Machine, ops: seq<Operand>): (r: Outcome<Machine>)
    requires Reachable(m)
    ensures Kept(r)
  {
    var dst :- At(m, Nth(ops, 0));
    var d :- At(m, AsGeneral(Enclosed(dst)));
    if m.stack == [] then Raised(m, EmptyStack)
    else
      var top := m.stack[|m.stack| - 1];
      var m1 := Set(m.(stack := m.stack[..|m.stack| - 1]), d, top);
      Print(m1, ops)
  }

  /** PUSH src, then (falling through) POP and PRINT on the same register: a
      fresh store with the register's value and type is pushed. */
  function Push(m: Machine, ops: seq<Operand>): (r: Outcome<Machine>)
    requires Reachable(m)
    ensures Kept(r)
  {
    var src :- At(m, Nth(ops, 0));
    var s :- At(m, AsGeneral(Enclosed(src)));
    var c := Get(m, s);
    Pop(m.(stack := m.stack + [Store(c.value, c.dtype, false)]), ops)
  }

  /** One pass of the `execute` loop's switch. */
  function Step(m: Machine, instr: LegacyInstruction): (r: Outcome<Machine>)
    requires Reachable(m)
    ensures Kept(r)
  {
    match instr.code
    case MOVE => Move(m, instr.operands)
    case ADD => Arith(LegacyOpcode.ADD, m, instr.operands)
    case SUBTRACT => Arith(SUBTRACT, m, instr.operands)
    case MULTIPLY => Arith(MULTIPLY, m, instr.operands)
    case DIVIDE => Divide(m, instr.operands)
    case PUSH => Push(m, instr.operands)
    case POP => Pop(m, instr.operands)
    case PRINT => Print(m, instr.operands)
  }

  /** The instructions in order, stopping at the first that throws. */
  function Run(m: Machine, program: seq<LegacyInstruction>): (r: Outcome<Machine>)
    requires Reachable(m)
    ensures Kept(r)
    decreases |program|
  {
    if program == [] then Done(m)
    else
      var m1 :- Step(m, program[0]);
      Run(m1, program[1..])
  }

  /** `execute()`: no loaded program fails on the loop; otherwise the program
      runs and R1 is printed. */
  function ExecuteAll(m: Machine, cache: Option<seq<LegacyInstruction>>): (r: Outcome<Machine>)
    requires Reachable(m)
    ensures Kept(r)
  {
    if cache.None? then Raised(m, NullPointer)
    else
      var m1 :- Run(m, cache.value);
      SendToConsole(m1, R1)
  }

  /** Continuing with `rest` after an outcome: a raised exception stops the run. */
  function Then(o: Outcome<Machine>, rest: seq<LegacyInstruction>): (r: Outcome<Machine>)
    requires Kept(o)
    ensures o.Raised? ==> r == o
  {
    match o
    case Done(m1) => Run(m1, rest)
    case Raised(at, e) => Raised(at, e)
  }

  /** One turn of the run: the first instruction, then the rest. */
  lemma RunStep(m: Machine, program: seq<LegacyInstruction>)
    requires Reachable(m) && program != []
    ensures Run(m, program) == Then(Step(m, program[0]), program[1..])
  {
  }

  /** Running two programs back to back is running their concatenation. */
  lemma {:induction false} RunConcat(m: Machine, p: seq<LegacyInstruction>, q: seq<LegacyInstruction>)
    requires Reachable(m)
    ensures Run(m, p + q) == Then(Run(m, p), q)
    decreases |p|
  {
    if p == [] {
      assert p + q == q;
    } else {
      assert (p + q)[0] == p[0] && (p + q)[1..] == p[1..] + q;
      RunStep(m, p + q);
      RunStep(m, p);
      var o := Step(m, p[0]);
      if o.Done? {
        RunConcat(o.value, p[1..], q);
      }
    }
  }

  /** MOVE between two registers leaves in the destination the source
      register's name typed Int4, not its content; nothing else changes. */
  lemma MoveRegisterLoadsName(m: Machine, d: GeneralReg, s: GeneralReg)
    requires Reachable(m)
    ensures Move(m, [Reg(d), Reg(s)]) == Done(Set(m, d, Store(RegName(s), Int4, false)))
  {
    var copied := Set(m, d, Get(m, s));
    assert Set(copied, d, Store(RegName(s), Int4, false)).regs == Set(m, d, Store(RegName(s), Int4, false)).regs;
  }

  /** MOVE of an immediate loads it, an int typed Int4 and a string typed Imm_Str. */
  lemma MoveImmediate(m: Machine, d: GeneralReg, n: int32, s: string)
    requires Reachable(m)
    ensures Move(m, [Reg(d), ImmInt(n)]) == Done(Set(m, d, Store(IntV(n), Int4, false)))
    ensures Move(m, [Reg(d), ImmStr(s)]) == Done(Set(m, d, Store(StrV(s), Imm_Str, false)))
  {
  }

  /** MOVE refuses a destination that is not a register, and fails on a
      variable source; neither changes the machine. */
  lemma MoveRejects(m: Machine, dst: Operand, src: Operand)
    requires Reachable(m)
    ensures TypeOf(dst) != Register ==>
      Move(m, [dst, src]) == Raised(m, UnsupportedOperation(MOVE_TO_NON_REGISTER))
    ensures TypeOf(dst) == Register && src.Ref? && !(src.dtype in {Register, Imm_Int4, Imm_Str}) ==>
      Move(m, [dst, src]) == Raised(m, ClassCast)
  {
  }

  /** The arithmetic opcodes on two Int4 registers: the destination gets the
      result wrapped to a Java int, and nothing else changes. */
  lemma ArithInt4(code: LegacyOpcode, m: Machine, d: GeneralReg, s: GeneralReg, a: int32, b: int32)
    requires code == LegacyOpcode.ADD || code == SUBTRACT || code == MULTIPLY
    requires Reachable(m)
    requires Get(m, d) == Store(IntV(a), Int4, false) && Get(m, s) == Store(IntV(b), Int4, false)
    ensures var exact := match code
        case ADD => a as int + b as int
        case SUBTRACT => a as int - b as int
        case _ => a as int * b as int;
      Arith(code, m, [Reg(d), Reg(s)]) == Done(Set(m, d, Store(IntV(Wrap(exact)), Int4, false)))
  {
    assert Operands(code, m, [Reg(d), Reg(s)]) == Done((d, a, b));
  }

  /** Registers of different types are refused, whatever the opcode. */
  lemma ArithTypeMismatch(code: LegacyOpcode, m: Machine, d: GeneralReg, s: GeneralReg)
    requires IsArithmetic(code) && Reachable(m)
    requires Get(m, d).dtype != Get(m, s).dtype
    ensures var r := Operands(code, m, [Reg(d), Reg(s)]);
      r.Raised? && r.at == m && r.e.UnsupportedOperation?
      && r.e.message == Title(code) + ": Type mismatch, unable to convert from "
        + Name(Get(m, s).dtype) + " to " + Name(Get(m, d).dtype)
  {
  }

  /** DIVIDE by a register holding Int4 zero fails and changes nothing. */
  lemma DivideByZero(m: Machine, d: GeneralReg, s: GeneralReg, a: int32)
    requires Reachable(m)
    requires Get(m, d) == Store(IntV(a), Int4, false) && Get(m, s) == Store(IntV(0), Int4, false)
    ensures Divide(m, [Reg(d), Reg(s)]) == Raised(m, ArithmeticException("/ by zero"))
  {
    assert Operands(DIVIDE, m, [Reg(d), Reg(s)]) == Done((d, a, 0));
  }

  /** DIVIDE on two Int4 registers, by a non-zero divisor and into a register
      other than R3: the destination gets the Java quotient and R3 the
      remainder, which recompose the dividend unless MIN_INT / -1 wrapped;
      every other register, the stack and the console are unchanged. */
  lemma DivideInt4(m: Machine, d: GeneralReg, s: GeneralReg, a: int32, b: int32)
    requires Reachable(m) && d != R3 && b != 0
    requires Get(m, d) == Store(IntV(a), Int4, false) && Get(m, s) == Store(IntV(b), Int4, false)
    ensures var r := Divide(m, [Reg(d), Reg(s)]);
      && r.Done?
      && Get(r.value, d) == Store(IntV(IntDiv(a, b)), Int4, false)
      && Get(r.value, R3) == Store(IntV(IntRem(a, b)), Int4, false)
      && (forall q: GeneralReg :: q != d && q != R3 ==> Get(r.value, q) == Get(m, q))
      && r.value.stack == m.stack && r.value.console == m.console
    ensures !(a == MIN_INT && b == -1) ==> a == b * IntDiv(a, b) + IntRem(a, b)
  {
    assert Operands(DIVIDE, m, [Reg(d), Reg(s)]) == Done((d, a, b));
    var m1 := Set(m, d, Store(IntV(IntDiv(a, b)), Int4, false));
    assert Divide(m, [Reg(d), Reg(s)]) == Done(Set(m1, R3, Store(IntV(IntRem(a, b)), Int4, false)));
    IntDivOverflowsOnlyAtMin(a, b);
    QuotRem(a, b);
  }

  /** PUSH r pushes r and pops it straight back into r before printing it:
      the stack and the registers come out as they went in, and only the
      console gains r's text. */
  lemma PushIsPrint(m: Machine, r: GeneralReg)
    requires Reachable(m)
    ensures Push(m, [Reg(r)]) == Print(m, [Reg(r)])
  {
    var c := Get(m, r);
    var pushed := m.(stack := m.stack + [Store(c.value, c.dtype, false)]);
    assert pushed.stack[..|pushed.stack| - 1] == m.stack;
    assert Set(pushed.(stack := m.stack), r, Store(c.value, c.dtype, false)) == m by {
      assert c.isRef == false;
      assert m.regs[Id(r) := c] == m.regs;
    }
  }

  /** POP on an empty stack fails and changes nothing. */
  lemma PopEmpty(m: Machine, r: GeneralReg)
    requires Reachable(m) && m.stack == []
    ensures Pop(m, [Reg(r)]) == Raised(m, EmptyStack)
  {
  }

  /** PRINT appends an Int4 register in decimal and a string register as it
      is, changing nothing else; without a console it fails. */
  lemma PrintAppends(m: Machine, r: GeneralReg)
    requires Reachable(m)
    ensures var c := Get(m, r);
      c.dtype == Int4 && c.value.IntV? && m.console.Some? ==>
        Print(m, [Reg(r)]) == Done(m.(console := Some(m.console.value + DecimalString(c.value.n))))
    ensures var c := Get(m, r);
      c.dtype == Imm_Str && c.value.StrV? && m.console.Some? ==>
        Print(m, [Reg(r)]) == Done(m.(console := Some(m.console.value + c.value.s)))
    ensures var c := Get(m, r);
      ((c.dtype == Int4 && c.value.IntV?) || (c.dtype == Imm_Str && c.value.StrV?)) && m.console.None? ==>
        Print(m, [Reg(r)]) == Raised(m, NullPointer)
    ensures var c := Get(m, r);
      c.dtype != Int4 && c.dtype != Imm_Str ==>
        Print(m, [Reg(r)]) == Raised(m, UnsupportedOperation("PRINT: Not supported for type " + Name(c.dtype)))
  {
  }

  /** A state that stopped with an exception, or finished. */
  function Ending(m: Machine, e: Option<Exception>): Outcome<Machine>
  {
    if e.Some? then Raised(m, e.value) else Done(m)
  }

  /** `VirtualMachine`: the register stores, the stack, the loaded program
      and the console. */
  class VirtualMachine {
    var registers: seq<Store>
    var vstack: seq<Store>
    var instructionCache: Option<seq<LegacyInstruction>>
    var console: Option<string>

    function View(): Machine
      reads this
    {
      Machine(registers, vstack, console)
    }

    predicate Valid()
      reads this
    {
      Reachable(View())
    }

    /** Eight empty register stores, an empty stack, no console and no program. */
    constructor ()
      ensures Valid()
      ensures registers == [EMPTY, EMPTY, EMPTY, EMPTY, EMPTY, EMPTY, EMPTY, EMPTY]
      ensures vstack == [] && console.None? && instructionCache.None?
    {
      registers := [EMPTY, EMPTY, EMPTY, EMPTY, EMPTY, EMPTY, EMPTY, EMPTY];
      vstack := [];
      console := None;
      instructionCache := None;
    }

    method InitializeIO(text: string)
      modifies this
      ensures console == Some(text)
      ensures registers == old(registers) && vstack == old(vstack) && instructionCache == old(instructionCache)
    {
      console := Some(text);
    }

    method Load(instructions: seq<LegacyInstruction>)
      modifies this
      ensures instructionCache == Some(instructions)
      ensures View() == old(View())
    {
      instructionCache := Some(instructions);
    }

    method Install(m: Machine)
      modifies this
      ensures View() == m && instructionCache == old(instructionCache)
    {
      registers, vstack, console := m.regs, m.stack, m.console;
    }

    /** Runs the loaded program and prints R1; `e` is what it threw, if anything. */
    method Execute() returns (e: Option<Exception>)
      requires Valid()
      modifies this
      ensures Valid()
      ensures Ending(View(), e) == ExecuteAll(old(View()), old(instructionCache))
      ensures instructionCache == old(instructionCache)
    {
      if instructionCache.None? {
        return Some(NullPointer);
      }
      var program := instructionCache.value;
      for i := 0 to |program|
        invariant Valid() && instructionCache == old(instructionCache)
        invariant Run(View(), program[i..]) == Run(old(View()), program)
      {
        assert program[i..][0] == program[i] && program[i..][1..] == program[i + 1..];
        var r := Step(View(), program[i]);
        match r
        case Raised(at, thrown) =>
          Install(at);
          return Some(thrown);
        case Done(next) =>
          Install(next);
      }
      var r := SendToConsole(View(), R1);
      match r
      case Raised(at, thrown) =>
        Install(at);
        return Some(thrown);
      case Done(next) =>
        Install(next);
        return None;
    }
  }
}
