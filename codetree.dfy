/**
 * Code generation trees. Each node of the parser's tree carries the code
 * generator its production injected; here that generator is named by the
 * node's kind. `Emit` is what running a node's generator does to the
 * builder's code segments, `Code` is the instruction sequence a tree stands
 * for, and the two agree.
 */
module CodeTrees {
  import opened JavaInt
  import opened DataTypes
  import opened Exceptions
  import opened Instructions
  import Tokens
  import SymbolTables
  import InstructionBuilders

  /** The binary arithmetic operators of the additive and multiplicative levels. */
  datatype Op = PLUS_OP | MINUS_OP | MULT_OP | DIV_OP | MOD_OP

  /** The generator a production injects into its node. */
  datatype Kind =
    | Block                  // statementBlock: each child in turn
    | Assign                 // assignment: right child, MOV R2 <- R1, left child
    | Print                  // print: each child, then PRINT R1
    | Clear                  // clear: CLEAR
    | Lvalue(name: string)   // lvalue: MOV [variable] <- R1
    | StringLit(text: string) // stringLiteralRef: MOV R1 <- text, PUSH R1
    | Binary(op: Op)         // addSub, multDivMod
    | Power                  // power: right operand first
    | Neg                    // negatable's unary minus: NEG R1
    | IntLit(n: int32)       // varnumeric's integer: MOV R1 <- n
    | Var(name: string)      // variableDeref: MOV R1 <- [variable]

  /** A node: its generator, its token, its value type and its children in order. */
  datatype Tree = Tree(kind: Kind, token: Tokens.TokenView, valType: DataType, children: seq<Tree>)

  /** The children a node's generator uses: a block and a print use all of
      theirs. */
  function Arity(k: Kind): Option<nat>
  {
    match k
    case Block => None
    case Print => None
    case Assign => Some(2)
    case Binary(_) => Some(2)
    case Power => Some(2)
    case Neg => Some(1)
    case _ => Some(0)
  }

  /** Every node has exactly the children its generator uses. */
  predicate Shaped(t: Tree)
  {
    && (Arity(t.kind).Some? ==> |t.children| == Arity(t.kind).value)
    && forall i :: 0 <= i < |t.children| ==> Shaped(t.children[i])
  }

  /** The opcode an operator's node ends with; `mod` divides and then takes R4. */
  function OpCode(op: Op): (c: Opcode)
    ensures c in {ADD, SUB, MULT, DIV}
  {
    match op
    case PLUS_OP => ADD
    case MINUS_OP => SUB
    case MULT_OP => MULT
    case DIV_OP => DIV
    case MOD_OP => DIV
  }

  function RegOp(code: Opcode, r: RegId): Instruction { Instruction(code, Some([Reg(r)])) }
  function RegRegOp(code: Opcode, r: RegId, s: RegId): Instruction { Instruction(code, Some([Reg(r), Reg(s)])) }
  function MovOp(dst: Operand, src: Operand): Instruction { Instruction(MOV, Some([dst, src])) }

  /** The builder's `MOV` refuses an immediate destination. */
  predicate MovRefused(dst: Operand) { TypeOf(dst) == Imm_Int4 || TypeOf(dst) == Imm_Str }

  /** The reference to a variable a generator looks up: its type and its offset
      as a Java int. */
  function RefTo(e: SymbolTables.Entry): Operand { Ref(e.dtype, Wrap(e.offset)) }

  // ---------------------------------------------------------------------
  // The code a tree stands for

  /** The instructions of a tree, or None when its generator fails: a missing
      child, a variable not in the table, or a move into an immediate. */
  function Code(t: Tree, catalog: map<string, SymbolTables.Entry>): Option<seq<Instruction>>
    decreases t, 2, 0
  {
    match t.kind
    case Block => CodeEach(t, 0, catalog, false)
    case Print => CodeEach(t, 0, catalog, true)
    case Assign =>
      var v := CodeOf(t, 1, catalog);
      var l := CodeOf(t, 0, catalog);
      if v.None? || l.None? then None else Some(v.value + [MovOp(Reg(R2), Reg(R1))] + l.value)
    case Clear => Some([Instruction(CLR, None)])
    case Lvalue(name) =>
      if name !in catalog || MovRefused(RefTo(catalog[name])) then None
      else Some([MovOp(RefTo(catalog[name]), Reg(R1))])
    case StringLit(s) => Some([MovOp(Reg(R1), ImmStr(s)), RegOp(PUSH, R1)])
    case Binary(op) =>
      var l := CodeOf(t, 0, catalog);
      var r := CodeOf(t, 1, catalog);
      if l.None? || r.None? then None
      else Some(l.value + [RegOp(PUSH, R1)] + r.value + Combine(op))
    case Power =>
      var r := CodeOf(t, 1, catalog);
      var l := CodeOf(t, 0, catalog);
      if l.None? || r.None? then None
      else Some(r.value + [RegOp(PUSH, R1)] + l.value + [RegOp(POP, R3), RegRegOp(EXP, R1, R3)])
    case Neg =>
      var c := CodeOf(t, 0, catalog);
      if c.None? then None else Some(c.value + [RegOp(NEG, R1)])
    case IntLit(n) => Some([MovOp(Reg(R1), ImmInt(n))])
    case Var(name) =>
      if name !in catalog then None else Some([MovOp(Reg(R1), RefTo(catalog[name]))])
  }

  /** What follows the right operand of a binary node: R3 takes the right
      value, R1 the saved left one, the operation, and for `mod` the
      remainder. */
  function Combine(op: Op): seq<Instruction>
  {
    [MovOp(Reg(R3), Reg(R1)), RegOp(POP, R1), RegRegOp(OpCode(op), R1, R3)]
      + (if op == MOD_OP then [MovOp(Reg(R1), Reg(R4))] else [])
  }

  /** `getChild(node, i).execInstrGen`: a missing child is a null. */
  function CodeOf(t: Tree, i: nat, catalog: map<string, SymbolTables.Entry>): Option<seq<Instruction>>
    decreases t, 0, 0
  {
    if i < |t.children| then Code(t.children[i], catalog) else None
  }

  /** The children from the i-th on, each followed by PRINT R1 in a print. */
  function CodeEach(t: Tree, i: nat, catalog: map<string, SymbolTables.Entry>, printing: bool): Option<seq<Instruction>>
    requires i <= |t.children|
    decreases t, 1, |t.children| - i
  {
    if i == |t.children| then Some([])
    else
      var c := CodeOf(t, i, catalog);
      var rest := CodeEach(t, i + 1, catalog, printing);
      if c.None? || rest.None? then None
      else Some(c.value + (if printing then [Instruction(PRNT, Some([Reg(R1)]))] else []) + rest.value)
  }

  // ---------------------------------------------------------------------
  // What the generators do to the builder

  /** The builder's segments, and the exception that stopped generation. */
  datatype Built = Built(segments: seq<seq<Instruction>>, e: Option<Exception>)

  /** One append to the active segment, unless generation has already failed. */
  function Put(b: Built, active: int, instr: Instruction): Built
  {
    if b.e.Some? then b
    else
      var (s, e) := InstructionBuilders.Appended(b.segments, active, instr);
      Built(s, e)
  }

  /** The builder's `MOV`. */
  function PutMov(b: Built, active: int, dst: Operand, src: Operand): Built
  {
    if b.e.Some? then b
    else if MovRefused(dst) then Built(b.segments, Some(RuntimeException("")))
    else Put(b, active, MovOp(dst, src))
  }

  /** `execInstrGen(builder)`: the tree's generator run on the builder. */
  function Emit(t: Tree, catalog: map<string, SymbolTables.Entry>, b: Built, active: int): Built
    decreases t, 2, 0
  {
    if b.e.Some? then b
    else match t.kind
      case Block => EmitEach(t, 0, catalog, b, active, false)
      case Print => EmitEach(t, 0, catalog, b, active, true)
      case Assign =>
        var b1 := EmitChild(t, 1, catalog, b, active);
        var b2 := PutMov(b1, active, Reg(R2), Reg(R1));
        EmitChild(t, 0, catalog, b2, active)
      case Clear => Put(b, active, Instruction(CLR, None))
      case Lvalue(name) =>
        if name !in catalog then Built(b.segments, Some(SymbolTables.UNKNOWN_SYMBOL))
        else PutMov(b, active, RefTo(catalog[name]), Reg(R1))
      case StringLit(s) => Put(PutMov(b, active, Reg(R1), ImmStr(s)), active, RegOp(PUSH, R1))
      case Binary(op) =>
        var b1 := EmitChild(t, 0, catalog, b, active);
        var b2 := Put(b1, active, RegOp(PUSH, R1));
        var b3 := EmitChild(t, 1, catalog, b2, active);
        PutAll(b3, active, Combine(op))
      case Power =>
        var b1 := EmitChild(t, 1, catalog, b, active);
        var b2 := Put(b1, active, RegOp(PUSH, R1));
        var b3 := EmitChild(t, 0, catalog, b2, active);
        Put(Put(b3, active, RegOp(POP, R3)), active, RegRegOp(EXP, R1, R3))
      case Neg => Put(EmitChild(t, 0, catalog, b, active), active, RegOp(NEG, R1))
      case IntLit(n) => PutMov(b, active, Reg(R1), ImmInt(n))
      case Var(name) =>
        if name !in catalog then Built(b.segments, Some(SymbolTables.UNKNOWN_SYMBOL))
        else PutMov(b, active, Reg(R1), RefTo(catalog[name]))
  }

  /** Register-to-register moves and register operations, appended in order. */
  function PutAll(b: Built, active: int, code: seq<Instruction>): Built
    decreases |code|
  {
    if code == [] then b else PutAll(Put(b, active, code[0]), active, code[1..])
  }

  /** `CNode.getChild(node, i).execInstrGen(builder)`: a missing child is a
      NullPointerException. */
  function EmitChild(t: Tree, i: nat, catalog: map<string, SymbolTables.Entry>, b: Built, active: int): Built
    decreases t, 0, 0
  {
    if b.e.Some? then b
    else if i < |t.children| then Emit(t.children[i], catalog, b, active)
    else Built(b.segments, Some(NullPointer))
  }

  /** The loop over a block's or a print's children, from the i-th on. */
  function EmitEach(t: Tree, i: nat, catalog: map<string, SymbolTables.Entry>, b: Built, active: int, printing: bool): Built
    requires i <= |t.children|
    decreases t, 1, |t.children| - i
  {
    if b.e.Some? || i == |t.children| then b
    else
      var b1 := EmitChild(t, i, catalog, b, active);
      var b2 := if printing then Put(b1, active, Instruction(PRNT, Some([Reg(R1)]))) else b1;
      EmitEach(t, i + 1, catalog, b2, active, printing)
  }

  // ---------------------------------------------------------------------
  // The generators, run on the builder

  /** `execInstrGen(builder)`: runs the node's generator, appending to the
      builder's active segment; the first exception stops it. */
  method Generate(t: Tree, builder: InstructionBuilders.InstructionBuilder) returns (e: Option<Exception>)
    modifies builder
    ensures builder.active == old(builder.active)
    ensures Built(builder.segments, e) == Emit(t, builder.table.catalog, Built(old(builder.segments), None), builder.active)
    decreases t, 2
  {
    ghost var b := Built(builder.segments, None);
    match t.kind
    case Block => e := GenerateEach(t, builder, false);
    case Print => e := GenerateEach(t, builder, true);
    case Assign =>
      e := GenerateChild(t, 1, builder);
      if e.Some? { return; }
      e := builder.Mov(Reg(R2), Reg(R1));
      if e.Some? { return; }
      e := GenerateChild(t, 0, builder);
    case Clear => e := builder.Clear();
    case Lvalue(name) =>
      var p := builder.table.GetVariableParams(name);
      if p.Thrown? { return Some(p.e); }
      e := builder.Mov(Ref(p.value.dtype, Wrap(p.value.offset)), Reg(R1));
    case StringLit(text) =>
      e := builder.Mov(Reg(R1), ImmStr(text));
      if e.Some? { return; }
      e := builder.Unary(PUSH, R1);  // cannot fail after the move
    case Binary(op) =>
      e := GenerateChild(t, 0, builder);
      if e.Some? {
        PutAllFailed(Built(builder.segments, e), builder.active, Combine(op));
        return;
      }
      e := builder.Unary(PUSH, R1);
      if e.Some? {
        PutAllFailed(Built(builder.segments, e), builder.active, Combine(op));
        return;
      }
      e := GenerateChild(t, 1, builder);
      if e.Some? {
        PutAllFailed(Built(builder.segments, e), builder.active, Combine(op));
        return;
      }
      e := GenerateCombine(op, builder);
    case Power =>
      e := GenerateChild(t, 1, builder);
      if e.Some? { return; }
      e := builder.Unary(PUSH, R1);
      if e.Some? { return; }
      e := GenerateChild(t, 0, builder);
      if e.Some? { return; }
      e := builder.Unary(POP, R3);   // cannot fail after the push
      e := builder.Binary(EXP, R1, R3);
    case Neg =>
      e := GenerateChild(t, 0, builder);
      if e.Some? { return; }
      e := builder.Unary(NEG, R1);
    case IntLit(n) => e := builder.Mov(Reg(R1), ImmInt(n));
    case Var(name) =>
      var p := builder.table.GetVariableParams(name);
      if p.Thrown? { return Some(p.e); }
      e := builder.Mov(Reg(R1), Ref(p.value.dtype, Wrap(p.value.offset)));
  }

  /** The moves and register operations that end a binary node's code. */
  method GenerateCombine(op: Op, builder: InstructionBuilders.InstructionBuilder) returns (e: Option<Exception>)
    modifies builder
    ensures builder.active == old(builder.active)
    ensures Built(builder.segments, e) == PutAll(Built(old(builder.segments), None), builder.active, Combine(op))
  {
    ghost var code := Combine(op);
    ghost var active := builder.active;
    ghost var b0 := Built(builder.segments, None);
    e := builder.Mov(Reg(R3), Reg(R1));
    ghost var b1 := Built(builder.segments, e);
    assert b1 == Put(b0, active, code[0]);
    assert PutAll(b0, active, code) == PutAll(b1, active, code[1..]);
    if e.Some? {
      PutAllFailed(b1, active, code[1..]);
      return;
    }
    // Once an append has succeeded the active segment exists, so the
    // appends that follow cannot fail.
    e := builder.Unary(POP, R1);
    ghost var b2 := Built(builder.segments, e);
    assert b2 == Put(b1, active, code[1]);
    assert code[1..][0] == code[1] && code[1..][1..] == code[2..];
    assert PutAll(b1, active, code[1..]) == PutAll(b2, active, code[2..]);
    e := builder.Binary(OpCode(op), R1, R3);
    ghost var b3 := Built(builder.segments, e);
    assert b3 == Put(b2, active, code[2]);
    assert code[2..][0] == code[2] && code[2..][1..] == code[3..];
    assert PutAll(b2, active, code[2..]) == PutAll(b3, active, code[3..]);
    if op == MOD_OP {
      e := builder.Mov(Reg(R1), Reg(R4));
      ghost var b4 := Built(builder.segments, e);
      assert b4 == Put(b3, active, code[3]);
      assert code[3..] == [code[3]] && code[3..][1..] == [];
      assert PutAll(b3, active, code[3..]) == PutAll(b4, active, []) == b4;
    } else {
      assert code[3..] == [];
      assert PutAll(b3, active, code[3..]) == b3;
    }
  }

  /** `CNode.getChild(node, i).execInstrGen(builder)`. */
  method GenerateChild(t: Tree, i: nat, builder: InstructionBuilders.InstructionBuilder) returns (e: Option<Exception>)
    modifies builder
    ensures builder.active == old(builder.active)
    ensures Built(builder.segments, e) == EmitChild(t, i, builder.table.catalog, Built(old(builder.segments), None), builder.active)
    decreases t, 0
  {
    if i >= |t.children| {
      return Some(NullPointer);
    }
    e := Generate(t.children[i], builder);
  }

  /** The loop over a block's or a print's children. */
  method GenerateEach(t: Tree, builder: InstructionBuilders.InstructionBuilder, printing: bool) returns (e: Option<Exception>)
    modifies builder
    ensures builder.active == old(builder.active)
    ensures Built(builder.segments, e) == EmitEach(t, 0, builder.table.catalog, Built(old(builder.segments), None), builder.active, printing)
    decreases t, 1
  {
    ghost var catalog := builder.table.catalog;
    e := None;
    for i := 0 to |t.children|
      invariant builder.active == old(builder.active) && e.None?
      invariant EmitEach(t, i, catalog, Built(builder.segments, None), builder.active, printing)
        == EmitEach(t, 0, catalog, Built(old(builder.segments), None), builder.active, printing)
    {
      ghost var before := builder.segments;
      e := GenerateChild(t, i, builder);
      if e.Some? {
        FailedEach(t, i + 1, catalog, Built(builder.segments, e), builder.active, printing);
        return;
      }
      if printing {
        e := builder.Print(Reg(R1));
        if e.Some? {
          FailedEach(t, i + 1, catalog, Built(builder.segments, e), builder.active, printing);
          return;
        }
      }
    }
  }

  // ---------------------------------------------------------------------
  // Generation appends exactly the tree's code

  /** The active segment with `c` added at its end. */
  function Grown(segs: seq<seq<Instruction>>, active: int, c: seq<Instruction>): seq<seq<Instruction>>
    requires 0 <= active < |segs|
  {
    segs[active := segs[active] + c]
  }

  lemma GrownTwice(segs: seq<seq<Instruction>>, active: int, a: seq<Instruction>, c: seq<Instruction>)
    requires 0 <= active < |segs|
    ensures Grown(Grown(segs, active, a), active, c) == Grown(segs, active, a + c)
  {
    assert segs[active] + a + c == segs[active] + (a + c);
  }

  lemma PutGrows(segs: seq<seq<Instruction>>, active: int, instr: Instruction)
    requires 0 <= active < |segs|
    ensures Put(Built(segs, None), active, instr) == Built(Grown(segs, active, [instr]), None)
  {
  }

  lemma {:induction false} PutAllGrows(segs: seq<seq<Instruction>>, active: int, code: seq<Instruction>)
    requires 0 <= active < |segs|
    ensures PutAll(Built(segs, None), active, code) == Built(Grown(segs, active, code), None)
    decreases |code|
  {
    if code == [] {
      assert segs[active] + code == segs[active];
      assert segs[active := segs[active]] == segs;
    } else {
      PutGrows(segs, active, code[0]);
      PutAllGrows(Grown(segs, active, [code[0]]), active, code[1..]);
      GrownTwice(segs, active, [code[0]], code[1..]);
      assert [code[0]] + code[1..] == code;
    }
  }

  /** A failed generation stays failed. */
  lemma {:induction false} PutAllFailed(b: Built, active: int, code: seq<Instruction>)
    requires b.e.Some?
    ensures PutAll(b, active, code) == b
    decreases |code|
  {
    if code != [] {
      PutAllFailed(b, active, code[1..]);
    }
  }

  /** With an active segment that exists, running a tree's generator appends
      exactly the tree's code to that segment and fails exactly when the tree
      has no code. */
  lemma {:induction false} EmitAppendsCode(t: Tree, catalog: map<string, SymbolTables.Entry>, segs: seq<seq<Instruction>>, active: int)
    requires 0 <= active < |segs|
    ensures var r := Emit(t, catalog, Built(segs, None), active);
      && (Code(t, catalog).Some? ==> r == Built(Grown(segs, active, Code(t, catalog).value), None))
      && (Code(t, catalog).None? ==> r.e.Some?)
    decreases t, 2, 0
  {
    var b := Built(segs, None);
    match t.kind
    case Block => EachAppendsCode(t, 0, catalog, segs, active, false);
    case Print => EachAppendsCode(t, 0, catalog, segs, active, true);
    case Assign =>
      ChildAppendsCode(t, 1, catalog, segs, active);
      var v := CodeOf(t, 1, catalog);
      if v.Some? {
        var s1 := Grown(segs, active, v.value);
        PutGrows(s1, active, MovOp(Reg(R2), Reg(R1)));
        var s2 := Grown(s1, active, [MovOp(Reg(R2), Reg(R1))]);
        ChildAppendsCode(t, 0, catalog, s2, active);
        var l := CodeOf(t, 0, catalog);
        if l.Some? {
          GrownTwice(segs, active, v.value, [MovOp(Reg(R2), Reg(R1))]);
          GrownTwice(segs, active, v.value + [MovOp(Reg(R2), Reg(R1))], l.value);
        }
      }
    case Clear => PutGrows(segs, active, Instruction(CLR, None));
    case Lvalue(name) =>
      if name in catalog && !MovRefused(RefTo(catalog[name])) {
        PutGrows(segs, active, MovOp(RefTo(catalog[name]), Reg(R1)));
      }
    case StringLit(s) =>
      assert PutMov(b, active, Reg(R1), ImmStr(s)) == Put(b, active, MovOp(Reg(R1), ImmStr(s)));
      PutGrows(segs, active, MovOp(Reg(R1), ImmStr(s)));
      PutGrows(Grown(segs, active, [MovOp(Reg(R1), ImmStr(s))]), active, RegOp(PUSH, R1));
      GrownTwice(segs, active, [MovOp(Reg(R1), ImmStr(s))], [RegOp(PUSH, R1)]);
      assert [MovOp(Reg(R1), ImmStr(s))] + [RegOp(PUSH, R1)] == Code(t, catalog).value;
      assert Emit(t, catalog, b, active) == Put(PutMov(b, active, Reg(R1), ImmStr(s)), active, RegOp(PUSH, R1));
    case Binary(op) => BinaryAppendsCode(t, op, catalog, segs, active);
    case Power => PowerAppendsCode(t, catalog, segs, active);
    case Neg =>
      ChildAppendsCode(t, 0, catalog, segs, active);
      var c := CodeOf(t, 0, catalog);
      if c.Some? {
        PutGrows(Grown(segs, active, c.value), active, RegOp(NEG, R1));
        GrownTwice(segs, active, c.value, [RegOp(NEG, R1)]);
      }
    case IntLit(n) => PutGrows(segs, active, MovOp(Reg(R1), ImmInt(n)));
    case Var(name) =>
      if name in catalog {
        PutGrows(segs, active, MovOp(Reg(R1), RefTo(catalog[name])));
      }
  }

  lemma {:induction false} BinaryAppendsCode(t: Tree, op: Op, catalog: map<string, SymbolTables.Entry>, segs: seq<seq<Instruction>>, active: int)
    requires 0 <= active < |segs| && t.kind == Binary(op)
    ensures var r := Emit(t, catalog, Built(segs, None), active);
      && (Code(t, catalog).Some? ==> r == Built(Grown(segs, active, Code(t, catalog).value), None))
      && (Code(t, catalog).None? ==> r.e.Some?)
    decreases t, 1, 0
  {
    var b := Built(segs, None);
    var b1 := EmitChild(t, 0, catalog, b, active);
    var b2 := Put(b1, active, RegOp(PUSH, R1));
    var b3 := EmitChild(t, 1, catalog, b2, active);
    assert Emit(t, catalog, b, active) == PutAll(b3, active, Combine(op));
    ChildAppendsCode(t, 0, catalog, segs, active);
    var l := CodeOf(t, 0, catalog);
    if l.None? {
      PutAllFailed(b3, active, Combine(op));
      assert Code(t, catalog).None?;
      return;
    }
    var s1 := Grown(segs, active, l.value);
    PutGrows(s1, active, RegOp(PUSH, R1));
    var s2 := Grown(s1, active, [RegOp(PUSH, R1)]);
    ChildAppendsCode(t, 1, catalog, s2, active);
    var r := CodeOf(t, 1, catalog);
    if r.None? {
      PutAllFailed(b3, active, Combine(op));
      assert Code(t, catalog).None?;
      return;
    }
    var s3 := Grown(s2, active, r.value);
    PutAllGrows(s3, active, Combine(op));
    GrownTwice(segs, active, l.value, [RegOp(PUSH, R1)]);
    GrownTwice(segs, active, l.value + [RegOp(PUSH, R1)], r.value);
    GrownTwice(segs, active, l.value + [RegOp(PUSH, R1)] + r.value, Combine(op));
    assert b1 == Built(s1, None);
    assert b2 == Built(s2, None);
    assert b3 == Built(s3, None);
    assert Code(t, catalog).value == l.value + [RegOp(PUSH, R1)] + r.value + Combine(op);
  }

  lemma {:induction false} PowerAppendsCode(t: Tree, catalog: map<string, SymbolTables.Entry>, segs: seq<seq<Instruction>>, active: int)
    requires 0 <= active < |segs| && t.kind == Power
    ensures var r := Emit(t, catalog, Built(segs, None), active);
      && (Code(t, catalog).Some? ==> r == Built(Grown(segs, active, Code(t, catalog).value), None))
      && (Code(t, catalog).None? ==> r.e.Some?)
    decreases t, 1, 0
  {
    var tail := [RegOp(POP, R3), RegRegOp(EXP, R1, R3)];
    ChildAppendsCode(t, 1, catalog, segs, active);
    var r := CodeOf(t, 1, catalog);
    if r.None? {
      assert Code(t, catalog).None?;
      return;
    }
    var s1 := Grown(segs, active, r.value);
    PutGrows(s1, active, RegOp(PUSH, R1));
    var s2 := Grown(s1, active, [RegOp(PUSH, R1)]);
    ChildAppendsCode(t, 0, catalog, s2, active);
    var l := CodeOf(t, 0, catalog);
    if l.None? {
      assert Code(t, catalog).None?;
      return;
    }
    var s3 := Grown(s2, active, l.value);
    PutGrows(s3, active, RegOp(POP, R3));
    PutGrows(Grown(s3, active, [RegOp(POP, R3)]), active, RegRegOp(EXP, R1, R3));
    GrownTwice(s3, active, [RegOp(POP, R3)], [RegRegOp(EXP, R1, R3)]);
    GrownTwice(segs, active, r.value, [RegOp(PUSH, R1)]);
    GrownTwice(segs, active, r.value + [RegOp(PUSH, R1)], l.value);
    GrownTwice(segs, active, r.value + [RegOp(PUSH, R1)] + l.value, tail);
    var b := Built(segs, None);
    var b1 := EmitChild(t, 1, catalog, b, active);
    var b2 := Put(b1, active, RegOp(PUSH, R1));
    var b3 := EmitChild(t, 0, catalog, b2, active);
    assert b1 == Built(s1, None);
    assert b2 == Built(s2, None);
    assert b3 == Built(s3, None);
    assert Code(t, catalog).value == r.value + [RegOp(PUSH, R1)] + l.value + tail;
    assert [RegOp(POP, R3)] + [RegRegOp(EXP, R1, R3)] == tail;
    assert Emit(t, catalog, b, active) == Put(Put(b3, active, RegOp(POP, R3)), active, RegRegOp(EXP, R1, R3));
  }

  lemma {:induction false} ChildAppendsCode(t: Tree, i: nat, catalog: map<string, SymbolTables.Entry>, segs: seq<seq<Instruction>>, active: int)
    requires 0 <= active < |segs|
    ensures var r := EmitChild(t, i, catalog, Built(segs, None), active);
      && (CodeOf(t, i, catalog).Some? ==> r == Built(Grown(segs, active, CodeOf(t, i, catalog).value), None))
      && (CodeOf(t, i, catalog).None? ==> r.e.Some?)
    decreases t, 0, 0
  {
    if i < |t.children| {
      EmitAppendsCode(t.children[i], catalog, segs, active);
    }
  }

  lemma {:induction false} EachAppendsCode(t: Tree, i: nat, catalog: map<string, SymbolTables.Entry>, segs: seq<seq<Instruction>>, active: int, printing: bool)
    requires 0 <= active < |segs| && i <= |t.children|
    ensures var r := EmitEach(t, i, catalog, Built(segs, None), active, printing);
      && (CodeEach(t, i, catalog, printing).Some? ==> r == Built(Grown(segs, active, CodeEach(t, i, catalog, printing).value), None))
      && (CodeEach(t, i, catalog, printing).None? ==> r.e.Some?)
    decreases t, 1, |t.children| - i
  {
    if i == |t.children| {
      assert segs[active] + [] == segs[active];
      assert segs[active := segs[active]] == segs;
      return;
    }
    var prnt := if printing then [Instruction(PRNT, Some([Reg(R1)]))] else [];
    ChildAppendsCode(t, i, catalog, segs, active);
    var c := CodeOf(t, i, catalog);
    if c.None? {
      FailedEach(t, i + 1, catalog, EmitChild(t, i, catalog, Built(segs, None), active), active, printing);
      return;
    }
    var s1 := Grown(segs, active, c.value);
    if printing {
      PutGrows(s1, active, Instruction(PRNT, Some([Reg(R1)])));
    } else {
      assert s1 == Grown(s1, active, prnt) by {
        assert s1[active] + prnt == s1[active];
      }
    }
    var s2 := Grown(s1, active, prnt);
    EachAppendsCode(t, i + 1, catalog, s2, active, printing);
    var rest := CodeEach(t, i + 1, catalog, printing);
    if rest.Some? {
      GrownTwice(segs, active, c.value, prnt);
      GrownTwice(segs, active, c.value + prnt, rest.value);
    }
  }

  lemma FailedEach(t: Tree, i: nat, catalog: map<string, SymbolTables.Entry>, b: Built, active: int, printing: bool)
    requires i <= |t.children| && b.e.Some?
    ensures EmitEach(t, i, catalog, b, active, printing) == b
  {
  }

  // ---------------------------------------------------------------------
  // Stack discipline

  /** PUSHes minus POPs. */
  function Net(code: seq<Instruction>): int
  {
    if code == [] then 0 else Net(code[..|code| - 1]) + Effect(code[|code| - 1])
  }

  /** What one instruction does to the stack's depth. */
  function Effect(instr: Instruction): int
  {
    match instr.code
    case PUSH => 1
    case POP => -1
    case _ => 0
  }

  lemma {:induction false} NetConcat(a: seq<Instruction>, c: seq<Instruction>)
    ensures Net(a + c) == Net(a) + Net(c)
    decreases |c|
  {
    if c == [] {
      assert a + c == a;
    } else {
      assert (a + c)[..|a + c| - 1] == a + c[..|c| - 1];
      NetConcat(a, c[..|c| - 1]);
    }
  }

  /** The string literals of a tree. */
  function Strings(t: Tree): nat
    decreases t, 1
  {
    (if t.kind.StringLit? then 1 else 0) + StringsFrom(t, 0)
  }

  function StringsFrom(t: Tree, i: nat): nat
    requires i <= |t.children|
    decreases t, 0, |t.children| - i
  {
    if i == |t.children| then 0 else Strings(t.children[i]) + StringsFrom(t, i + 1)
  }

  /** A tree's code leaves the stack as it found it, except that each string
      literal pushes its text and nothing pops it. */
  lemma {:induction false} CodeBalancesStack(t: Tree, catalog: map<string, SymbolTables.Entry>)
    requires Shaped(t) && Code(t, catalog).Some?
    ensures Net(Code(t, catalog).value) == Strings(t)
    decreases t, 2, 0
  {
    match t.kind
    case Block => EachBalances(t, 0, catalog, false);
    case Print => EachBalances(t, 0, catalog, true);
    case Assign =>
      assert |t.children| == 2;
      CodeBalancesStack(t.children[0], catalog);
      CodeBalancesStack(t.children[1], catalog);
      AssignNet(t, catalog);
    case Clear => LeafNet(t, catalog);
    case Lvalue(_) => LeafNet(t, catalog);
    case StringLit(_) => LeafNet(t, catalog);
    case Binary(op) =>
      assert |t.children| == 2;
      CodeBalancesStack(t.children[0], catalog);
      CodeBalancesStack(t.children[1], catalog);
      BinaryNet(t, op, catalog);
    case Power =>
      assert |t.children| == 2;
      CodeBalancesStack(t.children[0], catalog);
      CodeBalancesStack(t.children[1], catalog);
      PowerNet(t, catalog);
    case Neg =>
      assert |t.children| == 1;
      CodeBalancesStack(t.children[0], catalog);
      NegNet(t, catalog);
    case IntLit(_) => LeafNet(t, catalog);
    case Var(_) => LeafNet(t, catalog);
  }

  /** A leaf's code pushes only for a string literal. */
  lemma LeafNet(t: Tree, catalog: map<string, SymbolTables.Entry>)
    requires t.kind.Clear? || t.kind.Lvalue? || t.kind.StringLit? || t.kind.IntLit? || t.kind.Var?
    requires Shaped(t) && Code(t, catalog).Some?
    ensures Net(Code(t, catalog).value) == Strings(t)
  {
    if t.kind.StringLit? {
      NoChildStrings(t);
      assert Net([MovOp(Reg(R1), ImmStr(t.kind.text))]) == 0;
    } else {
      assert StringsFrom(t, |t.children|) == 0;
    }
  }

  /** A negation's code: the operand's, then NEG. */
  lemma NegNet(t: Tree, catalog: map<string, SymbolTables.Entry>)
    requires t.kind == Neg && |t.children| == 1 && Code(t, catalog).Some?
    requires Code(t.children[0], catalog).Some? && Net(Code(t.children[0], catalog).value) == Strings(t.children[0])
    ensures Net(Code(t, catalog).value) == Strings(t)
  {
    NetConcat(Code(t.children[0], catalog).value, [RegOp(NEG, R1)]);
    FirstChild(t);
  }

  /** The children of a two-operand node have code that balances the stack up
      to their strings. */
  predicate OperandsBalance(t: Tree, catalog: map<string, SymbolTables.Entry>)
  {
    && |t.children| == 2
    && Code(t.children[0], catalog).Some? && Code(t.children[1], catalog).Some?
    && Net(Code(t.children[0], catalog).value) == Strings(t.children[0])
    && Net(Code(t.children[1], catalog).value) == Strings(t.children[1])
  }

  /** An assignment's code: the value, a register move, the store. */
  lemma AssignNet(t: Tree, catalog: map<string, SymbolTables.Entry>)
    requires t.kind == Assign && OperandsBalance(t, catalog)
    ensures Code(t, catalog).Some? && Net(Code(t, catalog).value) == Strings(t)
  {
    var mov := [MovOp(Reg(R2), Reg(R1))];
    assert Net(mov) == 0;
    NetConcat(Code(t.children[1], catalog).value, mov);
    NetConcat(Code(t.children[1], catalog).value + mov, Code(t.children[0], catalog).value);
    TwoChildren(t);
  }

  /** A binary node's code: the left operand, a push, the right operand, and
      the combination, which pops the push. */
  lemma BinaryNet(t: Tree, op: Op, catalog: map<string, SymbolTables.Entry>)
    requires t.kind == Binary(op) && OperandsBalance(t, catalog)
    ensures Code(t, catalog).Some? && Net(Code(t, catalog).value) == Strings(t)
  {
    var push := [RegOp(PUSH, R1)];
    assert Net(push) == 1;
    var l := Code(t.children[0], catalog).value;
    var r := Code(t.children[1], catalog).value;
    CombineNet(op);
    NetConcat(l, push);
    NetConcat(l + push, r);
    NetConcat(l + push + r, Combine(op));
    TwoChildren(t);
  }

  /** A power node's code: the exponent, a push, the base, then a pop and
      the exponentiation. */
  lemma PowerNet(t: Tree, catalog: map<string, SymbolTables.Entry>)
    requires t.kind == Power && OperandsBalance(t, catalog)
    ensures Code(t, catalog).Some? && Net(Code(t, catalog).value) == Strings(t)
  {
    var push := [RegOp(PUSH, R1)];
    var l := Code(t.children[0], catalog).value;
    var r := Code(t.children[1], catalog).value;
    var tail := [RegOp(POP, R3), RegRegOp(EXP, R1, R3)];
    PowerCode(t, catalog);
    PowerTailNet();
    assert Net(push) == 1;
    NetConcat(r, push);
    NetConcat(r + push, l);
    NetConcat(r + push + l, tail);
    TwoChildren(t);
  }

  lemma PowerCode(t: Tree, catalog: map<string, SymbolTables.Entry>)
    requires t.kind == Power && OperandsBalance(t, catalog)
    ensures Code(t, catalog) == Some(Code(t.children[1], catalog).value + [RegOp(PUSH, R1)]
      + Code(t.children[0], catalog).value + [RegOp(POP, R3), RegRegOp(EXP, R1, R3)])
  {
  }

  lemma PowerTailNet()
    ensures Net([RegOp(POP, R3), RegRegOp(EXP, R1, R3)]) == -1
  {
    var tail := [RegOp(POP, R3), RegRegOp(EXP, R1, R3)];
    assert tail[..1] == [RegOp(POP, R3)];
    assert [RegOp(POP, R3)][..0] == [];
  }

  lemma CombineNet(op: Op)
    ensures Net(Combine(op)) == -1
  {
    var c := Combine(op);
    var three := [MovOp(Reg(R3), Reg(R1)), RegOp(POP, R1), RegRegOp(OpCode(op), R1, R3)];
    assert three[..2][..1] == [MovOp(Reg(R3), Reg(R1))];
    assert three[..2] == [MovOp(Reg(R3), Reg(R1)), RegOp(POP, R1)];
    assert [MovOp(Reg(R3), Reg(R1))][..0] == [];
    assert Net([MovOp(Reg(R3), Reg(R1))]) == 0;
    assert Net(three[..2]) == -1;
    assert Net(three) == -1;
    if op == MOD_OP {
      NetConcat(three, [MovOp(Reg(R1), Reg(R4))]);
    } else {
      assert c == three;
    }
  }

  /** A node whose code uses two children has exactly the strings of its two
      children, when it has no more. */
  lemma TwoChildren(t: Tree)
    requires |t.children| == 2 && !t.kind.StringLit?
    ensures Strings(t) == Strings(t.children[0]) + Strings(t.children[1])
  {
    assert StringsFrom(t, 2) == 0;
    assert StringsFrom(t, 1) == Strings(t.children[1]);
  }

  lemma FirstChild(t: Tree)
    requires |t.children| == 1 && !t.kind.StringLit?
    ensures Strings(t) == Strings(t.children[0])
  {
    assert StringsFrom(t, 1) == 0;
  }

  lemma NoChildStrings(t: Tree)
    requires t.kind.StringLit? && |t.children| == 0
    ensures Strings(t) == 1
  {
  }

  lemma {:induction false} EachBalances(t: Tree, i: nat, catalog: map<string, SymbolTables.Entry>, printing: bool)
    requires Shaped(t) && i <= |t.children| && CodeEach(t, i, catalog, printing).Some?
    ensures Net(CodeEach(t, i, catalog, printing).value) == StringsFrom(t, i)
    decreases t, 1, |t.children| - i
  {
    if i < |t.children| {
      var c := Code(t.children[i], catalog).value;
      var prnt := if printing then [Instruction(PRNT, Some([Reg(R1)]))] else [];
      assert Net(prnt) == 0;
      CodeBalancesStack(t.children[i], catalog);
      EachBalances(t, i + 1, catalog, printing);
      NetConcat(c, prnt);
      NetConcat(c + prnt, CodeEach(t, i + 1, catalog, printing).value);
    }
  }
}
