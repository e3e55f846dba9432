/**
 * The assembler: instructions are appended to one of a list of code segments,
 * the active one, and `commit` lays the segments end to end as the program.
 */
module InstructionBuilders {
  import opened JavaInt
  import opened DataTypes
  import opened Exceptions
  import opened Instructions
  import LegacyInstructions
  import SymbolTables

  /** The segments laid end to end, in index order. */
  function Flatten<I>(segments: seq<seq<I>>): (program: seq<I>)
    ensures |segments| == 0 ==> program == []
  {
    if |segments| == 0 then [] else Flatten(segments[..|segments| - 1]) + segments[|segments| - 1]
  }

  /** Laying out segments one after another is laying out their concatenation. */
  lemma {:induction false} FlattenConcat<I>(a: seq<seq<I>>, b: seq<seq<I>>)
    ensures Flatten(a + b) == Flatten(a) + Flatten(b)
    decreases |b|
  {
    if |b| == 0 {
      assert a + b == a;
    } else {
      var last := |b| - 1;
      assert (a + b)[..|a + b| - 1] == a + b[..last];
      FlattenConcat(a, b[..last]);
    }
  }

  /** `m_codeSegments.get(active).add(instr)`: the instruction goes at the end
      of the active segment; an index that names no segment fails. */
  function Appended<I>(segments: seq<seq<I>>, active: int, instr: I): (r: (seq<seq<I>>, Option<Exception>))
    ensures r.1.None? <==> 0 <= active < |segments|
    ensures r.1.Some? ==> r == (segments, Some(IndexOutOfBounds(active)))
    ensures r.1.None? ==> |r.0| == |segments| && r.0[active] == segments[active] + [instr]
    ensures r.1.None? ==> forall k :: 0 <= k < |segments| && k != active ==> r.0[k] == segments[k]
  {
    if 0 <= active < |segments| then (segments[active := segments[active] + [instr]], None)
    else (segments, Some(IndexOutOfBounds(active)))
  }

  /** After an append, the committed program holds the segments up to the
      active one, then the instruction, then the segments after it. */
  lemma AppendedCommit<I>(segments: seq<seq<I>>, active: int, instr: I)
    requires 0 <= active < |segments|
    ensures Flatten(Appended(segments, active, instr).0)
      == Flatten(segments[..active + 1]) + [instr] + Flatten(segments[active + 1..])
  {
    var after := segments[active := segments[active] + [instr]];
    var pre := segments[..active];
    assert Appended(segments, active, instr).0 == after;
    Split(after, active + 1);
    assert after[active + 1..] == segments[active + 1..];
    assert after[..active + 1] == pre + [segments[active] + [instr]];
    assert segments[..active + 1] == pre + [segments[active]];
    Snoc(pre, segments[active]);
    Snoc(pre, segments[active] + [instr]);
  }

  /** When the active segment is the last one, an append adds the instruction
      at the end of the committed program. */
  lemma AppendedLast<I>(segments: seq<seq<I>>, instr: I)
    requires |segments| > 0
    ensures Flatten(Appended(segments, |segments| - 1, instr).0) == Flatten(segments) + [instr]
  {
    AppendedCommit(segments, |segments| - 1, instr);
    assert segments[..|segments|] == segments;
    assert segments[|segments|..] == [];
  }

  lemma Split<I>(s: seq<seq<I>>, k: int)
    requires 0 <= k <= |s|
    ensures Flatten(s) == Flatten(s[..k]) + Flatten(s[k..])
  {
    assert s == s[..k] + s[k..];
    FlattenConcat(s[..k], s[k..]);
  }

  lemma Snoc<I>(pre: seq<seq<I>>, seg: seq<I>)
    ensures Flatten(pre + [seg]) == Flatten(pre) + seg
  {
    assert (pre + [seg])[..|pre|] == pre;
  }

  /** `getActiveCodeSegment`. */
  function ActiveSegment<I>(segments: seq<seq<I>>, active: int): (r: Try<seq<I>>)
    ensures r.Ok? <==> 0 <= active < |segments|
    ensures r.Ok? ==> r.value == segments[active]
  {
    if 0 <= active < |segments| then Ok(segments[active]) else Thrown(IndexOutOfBounds(active))
  }

  /** The live builder. */
  class InstructionBuilder {
    var segments: seq<seq<Instruction>>
    var active: int
    /** The symbol table `createSymbol` registers in. */
    const table: SymbolTables.SymbolTable

    /** A new builder has one empty segment, and it is active. */
    constructor (table: SymbolTables.SymbolTable)
      ensures segments == [[]] && active == 0 && this.table == table
    {
      segments := [[]];
      active := 0;
      this.table := table;
    }

    method GetActiveCodeSegment() returns (r: Try<seq<Instruction>>)
      ensures r == ActiveSegment(segments, active)
    {
      if !(0 <= active < |segments|) {
        return Thrown(IndexOutOfBounds(active));
      }
      return Ok(segments[active]);
    }

    /** `setActiveCodeSegment(idx)`: only positive indexes are accepted, so
        segment 0 can never be selected again, and nothing checks the upper
        bound. */
    method SetActiveCodeSegment(idx: int) returns (e: Option<Exception>)
      modifies this
      ensures segments == old(segments)
      ensures idx > 0 ==> e.None? && active == idx
      ensures idx <= 0 ==> e == Some(IllegalArgument("")) && active == old(active)
    {
      if idx > 0 {
        active := idx;
        return None;
      }
      return Some(IllegalArgument(""));
    }

    /** `createCodeSegment`: appends an empty segment and returns its index. */
    method CreateCodeSegment() returns (idx: int)
      modifies this
      ensures segments == old(segments) + [[]] && active == old(active)
      ensures idx == |old(segments)| && segments[idx] == []
    {
      segments := segments + [[]];
      idx := |segments| - 1;
    }

    /** `createSymbol`: registers the name with the symbol table. */
    method CreateSymbol(name: string, t: DataType)
      modifies table, table.memory
      ensures table.catalog == old(table.catalog)[name := SymbolTables.Entry(name, t, old(table.memory.nextAddr))]
    {
      table.RegisterVariable(name, t);
    }

    /** `commit`: the segments, appended one after another to a new program. */
    method Commit() returns (program: seq<Instruction>)
      ensures program == Flatten(segments)
    {
      program := [];
      var i := 0;
      while i < |segments|
        invariant 0 <= i <= |segments| && program == Flatten(segments[..i])
      {
        assert segments[..i + 1][..i] == segments[..i];
        program := program + segments[i];
        i := i + 1;
      }
      assert segments[..i] == segments;
    }

    method Append(instr: Instruction) returns (e: Option<Exception>)
      modifies this
      ensures (segments, e) == Appended(old(segments), old(active), instr) && active == old(active)
    {
      if !(0 <= active < |segments|) {
        return Some(IndexOutOfBounds(active));
      }
      segments := segments[active := segments[active] + [instr]];
      return None;
    }

    /** `MOV(dst, src)`: an immediate destination is refused before anything
        is appended. */
    method Mov(dst: Operand, src: Operand) returns (e: Option<Exception>)
      modifies this
      ensures active == old(active)
      ensures TypeOf(dst) in {Imm_Int4, Imm_Str} ==> e == Some(RuntimeException("")) && segments == old(segments)
      ensures TypeOf(dst) !in {Imm_Int4, Imm_Str} ==>
        (segments, e) == Appended(old(segments), active, Instruction(MOV, Some([dst, src])))
    {
      if TypeOf(dst) == Imm_Int4 || TypeOf(dst) == Imm_Str {
        return Some(RuntimeException(""));
      }
      e := Append(Instruction(MOV, Some([dst, src])));
    }

    /** `ADD`, `SUB`, `MUL`, `DIV`, `EXP`: the operation on two registers. */
    method Binary(code: Opcode, op1: RegId, op2: RegId) returns (e: Option<Exception>)
      requires code in {ADD, SUB, MULT, DIV, EXP}
      modifies this
      ensures active == old(active)
      ensures (segments, e) == Appended(old(segments), active, Instruction(code, Some([Reg(op1), Reg(op2)])))
    {
      e := Append(Instruction(code, Some([Reg(op1), Reg(op2)])));
    }

    /** `NEG`, `PUSH`, `POP`: the operation on one register. */
    method Unary(code: Opcode, op: RegId) returns (e: Option<Exception>)
      requires code in {NEG, PUSH, POP}
      modifies this
      ensures active == old(active)
      ensures (segments, e) == Appended(old(segments), active, Instruction(code, Some([Reg(op)])))
    {
      e := Append(Instruction(code, Some([Reg(op)])));
    }

    /** `PRINT(src)`: a PRNT of the operand. */
    method Print(src: Operand) returns (e: Option<Exception>)
      modifies this
      ensures active == old(active)
      ensures (segments, e) == Appended(old(segments), active, Instruction(PRNT, Some([src])))
    {
      e := Append(Instruction(PRNT, Some([src])));
    }

    /** `CLEAR`: a CLR whose operand list is null. */
    method Clear() returns (e: Option<Exception>)
      modifies this
      ensures active == old(active)
      ensures (segments, e) == Appended(old(segments), active, Instruction(CLR, None))
    {
      e := Append(Instruction(CLR, None));
    }

  }

  /** The older builder: it starts with no segment at all. */
  class LegacyInstructionBuilder {
    var segments: seq<seq<LegacyInstructions.LegacyInstruction>>
    var active: int

    /** No segment exists until `createCodeSegment` adds one. */
    constructor ()
      ensures segments == [] && active == 0
    {
      segments := [];
      active := 0;
    }

    method SetActiveCodeSegment(idx: int) returns (e: Option<Exception>)
      modifies this
      ensures segments == old(segments)
      ensures idx > 0 ==> e.None? && active == idx
      ensures idx <= 0 ==> e == Some(IllegalArgument("")) && active == old(active)
    {
      if idx > 0 {
        active := idx;
        return None;
      }
      return Some(IllegalArgument(""));
    }

    method CreateCodeSegment() returns (idx: int)
      modifies this
      ensures segments == old(segments) + [[]] && active == old(active)
      ensures idx == |old(segments)| && segments[idx] == []
    {
      segments := segments + [[]];
      idx := |segments| - 1;
    }

    method Append(instr: LegacyInstructions.LegacyInstruction) returns (e: Option<Exception>)
      modifies this
      ensures (segments, e) == Appended(old(segments), old(active), instr) && active == old(active)
    {
      if !(0 <= active < |segments|) {
        return Some(IndexOutOfBounds(active));
      }
      segments := segments[active := segments[active] + [instr]];
      return None;
    }

    /** `MOV(dst, src)`: a MOVE; an immediate destination is refused. */
    method Mov(dst: Operand, src: Operand) returns (e: Option<Exception>)
      modifies this
      ensures active == old(active)
      ensures TypeOf(dst) in {Imm_Int4, Imm_Str} ==> e == Some(RuntimeException("")) && segments == old(segments)
      ensures TypeOf(dst) !in {Imm_Int4, Imm_Str} ==>
        (segments, e) == Appended(old(segments), active, LegacyInstructions.LegacyInstruction(LegacyInstructions.MOVE, [dst, src]))
    {
      if TypeOf(dst) == Imm_Int4 || TypeOf(dst) == Imm_Str {
        return Some(RuntimeException(""));
      }
      e := Append(LegacyInstructions.LegacyInstruction(LegacyInstructions.MOVE, [dst, src]));
    }

    /** `ADD`, `SUB`, `MUL`, `DIV`: an ADD, SUBTRACT, MULTIPLY or DIVIDE of two registers. */
    method Binary(code: LegacyInstructions.LegacyOpcode, op1: LegacyInstructions.GeneralReg, op2: LegacyInstructions.GeneralReg)
      returns (e: Option<Exception>)
      requires code in {LegacyInstructions.ADD, LegacyInstructions.SUBTRACT, LegacyInstructions.MULTIPLY, LegacyInstructions.DIVIDE}
      modifies this
      ensures active == old(active)
      ensures (segments, e) == Appended(old(segments), active, LegacyInstructions.LegacyInstruction(code, [Reg(op1), Reg(op2)]))
    {
      e := Append(LegacyInstructions.LegacyInstruction(code, [Reg(op1), Reg(op2)]));
    }

    /** `PUSH`, `POP`: the operation on one register. */
    method Unary(code: LegacyInstructions.LegacyOpcode, op: LegacyInstructions.GeneralReg) returns (e: Option<Exception>)
      requires code in {LegacyInstructions.PUSH, LegacyInstructions.POP}
      modifies this
      ensures active == old(active)
      ensures (segments, e) == Appended(old(segments), active, LegacyInstructions.LegacyInstruction(code, [Reg(op)]))
    {
      e := Append(LegacyInstructions.LegacyInstruction(code, [Reg(op)]));
    }
  }

  /** Before any segment is created, every emitter of the older builder fails
      on `get(0)` and leaves the segments as they were. */
  lemma LegacyEmitBeforeSegment(instr: LegacyInstructions.LegacyInstruction)
    ensures Appended([], 0, instr) == ([], Some(IndexOutOfBounds(0)))
  {
  }
}
