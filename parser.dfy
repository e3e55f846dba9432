/**
 * The recursive-descent parser, both editions. A production reads tokens from
 * the stream, may put the last one back or rewind to a remembered one, may
 * register a variable, and answers a tree, nothing (Java's `null`), or an
 * exception. Here each production is a function from where the parser stands
 * to what it answers and where it then stands; the editions differ only where
 * the code they run differs.
 */
module Parsers {
  import opened TokenCodes
  import opened Tokens
  import opened Exceptions
  import opened DataTypes
  import opened CompilerErrors
  import JavaInt
  import SymbolTables
  import CT = CodeTrees
  import TokenStreams

  type Tree = CT.Tree

  /** The live parser, or the legacy one. */
  datatype Edition = Live | Legacy

  /** What is parsed: the edition, and the tokens the stream hands out before
      it reports its end. */
  datatype Script = Script(edition: Edition, toks: seq<TokenView>)

  /** Where the parser stands: the stream's read position and end flag, the
      symbol table's names and next free address, and the parse-failed flag
      (the observer's flag in the live edition, the static `parsingFailed` in
      the legacy one). */
  datatype PState = PState(pos: nat, eos: bool, catalog: map<string, SymbolTables.Entry>, nextAddr: int, failed: bool)

  /** What a production answers, and where the parser then stands. */
  datatype Parsed = Parsed(r: Try<Option<Tree>>, st: PState)

  /** What a helper that only checks tokens answers: the exception it throws,
      if any, and where the parser then stands. */
  datatype Done = Done(e: Option<Exception>, st: PState)

  /** The analyzer's tokens carry their text. */
  predicate Lexed(toks: seq<TokenView>)
  {
    forall i :: 0 <= i < |toks| ==> toks[i].value.Some?
  }

  predicate Good(sc: Script, st: PState)
  {
    st.pos <= |sc.toks| && Lexed(sc.toks)
  }

  /** A token is still to be read. */
  predicate Pending(sc: Script, st: PState)
  {
    !st.eos && st.pos < |sc.toks|
  }

  /** What is left to read: two per token, and one more until the end is seen. */
  function Left(sc: Script, st: PState): int
  {
    2 * (|sc.toks| - st.pos) + (if st.eos then 0 else 1)
  }

  function Text(t: TokenView): string
    requires t.value.Some?
  {
    t.value.value
  }

  predicate Yields(p: Parsed)
  {
    p.r.Ok? && p.r.value.Some?
  }

  function Yield(p: Parsed): Tree
    requires Yields(p)
  {
    p.r.value.value
  }

  // ---------------------------------------------------------------------
  // The token stream

  /** `read()`: nothing once the end has been seen; the next token; or, past
      the last token, nothing, and the end is seen. */
  function Read(sc: Script, st: PState): (p: (Option<TokenView>, PState))
    ensures Pending(sc, st) ==> p == (Some(sc.toks[st.pos]), st.(pos := st.pos + 1))
    ensures !Pending(sc, st) ==> p == (None, st.(eos := true)) && p.1.pos == st.pos
    ensures st.eos ==> p.1 == st
  {
    if st.eos then (None, st)
    else if st.pos < |sc.toks| then (Some(sc.toks[st.pos]), st.(pos := st.pos + 1))
    else (None, st.(eos := true))
  }

  /** `rewind(begin)` to the token read at position `pos`: it is read next, and
      the end is no longer seen. */
  function Rewind(st: PState, pos: nat): PState
  {
    st.(pos := pos, eos := false)
  }

  /** The parse does not go back, a tree it yields is well formed, and the
      flag is left alone. */
  predicate Keeps(sc: Script, st: PState, p: Parsed)
  {
    && p.st.pos <= |sc.toks|
    && Left(sc, p.st) <= Left(sc, st)
    && (Yields(p) ==> WellFormed(Yield(p)))
    && p.st.failed == st.failed
  }

  /** The same, and a production that yields a tree has read at least one
      token. */
  predicate Advance(sc: Script, st: PState, p: Parsed)
  {
    Keeps(sc, st, p) && (Yields(p) ==> Left(sc, p.st) < Left(sc, st))
  }

  /** What a statement keeps: as `Advance`, except that the legacy fallback
      may set the flag (and never clears it). */
  predicate Steps(sc: Script, st: PState, p: Parsed)
  {
    && p.st.pos <= |sc.toks|
    && Left(sc, p.st) <= Left(sc, st)
    && (Yields(p) ==> WellFormed(Yield(p)) && Left(sc, p.st) < Left(sc, st))
    && (st.failed ==> p.st.failed)
    && (sc.edition == Live ==> p.st.failed == st.failed)
  }

  // ---------------------------------------------------------------------
  // Trees

  /** Value types fit together: an operator's operands have its type, a
      negation's operand has its type, an assignment stores an Int4 into an
      Int4 variable, and literals have their own types. */
  predicate Typed(t: Tree)
  {
    && (match t.kind
        case Binary(_) => |t.children| == 2 && t.children[0].valType == t.valType && t.children[1].valType == t.valType
        case Power => |t.children| == 2 && t.children[0].valType == t.valType && t.children[1].valType == t.valType
        case Neg => |t.children| == 1 && t.children[0].valType == t.valType
        case Assign => |t.children| == 2 && t.children[0].valType == Int4 && t.children[1].valType == Int4
        case Lvalue(_) => t.valType == Int4
        case IntLit(_) => t.valType == Int4
        case StringLit(_) => t.valType == Imm_Str
        case _ => true)
    && forall i :: 0 <= i < |t.children| ==> Typed(t.children[i])
  }

  predicate WellFormed(t: Tree)
  {
    CT.Shaped(t) && Typed(t)
  }

  /** `t` is `bottom` under a left spine of operators from `ops`: each operator
      node has the previous tree as its first child. */
  predicate LeftChain(t: Tree, bottom: Tree, ops: set<CT.Op>)
  {
    t == bottom || (t.kind.Binary? && t.kind.op in ops && |t.children| == 2 && LeftChain(t.children[0], bottom, ops))
  }

  const BLOCK_TOKEN: TokenView := TokenView(NONE, 0, 0, 0, Some("{}"))

  function BlockOf(stmts: seq<Tree>): Tree
  {
    CT.Tree(CT.Block, BLOCK_TOKEN, Empty, stmts)
  }

  /** A block or a print is well formed when its children are. */
  lemma ListWellFormed(t: Tree)
    requires t.kind == CT.Block || t.kind == CT.Print
    requires forall i :: 0 <= i < |t.children| ==> WellFormed(t.children[i])
    ensures WellFormed(t)
  {
    assert forall i :: 0 <= i < |t.children| ==> CT.Shaped(t.children[i]) && Typed(t.children[i]);
  }

  // ---------------------------------------------------------------------
  // Errors

  const EOS_MESSAGE := "Unexpected end of file/line while processing instruction(s)."
  const TYPE_CHECK_MESSAGE := "Operand type mistmatch in binary operation"
  const ASSIGN_MISMATCH := "Type mismatch in assignment"
  const COMMAND_LINE_MESSAGE := "Script functions and logic unavailable on the command line"
  const NO_TERMINATOR := "Unexpected end-of-script while looking for statement terminator (;)"

  /** A ParseException carrying the edition's formatted message; should the
      formatting itself fail, its exception is thrown instead. */
  function Error(ed: Edition, token: Option<TokenView>, errType: ErrType, message: string): Exception
  {
    var m := if ed == Live then Format(token, ERROR, errType, message) else LegacyFormat(token, ERROR, errType, message);
    if m.Ok? then ParseException(m.value) else m.e
  }

  /** The same with a message constant; the legacy constants carry the same
      labels. */
  function Complaint(ed: Edition, token: Option<TokenView>, errType: ErrType, m: ErrMessage): Exception
  {
    Error(ed, token, errType, MessageLabel(m))
  }

  /** `abortIfEOS`: a ParseException in the live edition, a RuntimeException,
      which statement recovery does not catch, in the legacy one. */
  function EosError(ed: Edition): (e: Exception)
    ensures e.ParseException? <==> ed == Live
  {
    if ed == Live then Error(Live, None, COMP_U, EOS_MESSAGE)
    else RuntimeException(LegacyFormat(Some(NONE_TOKEN), ERROR, COMP_U, EOS_MESSAGE).value)
  }

  /** `isReserved`: the keywords of script control flow and I/O. */
  predicate IsReserved(s: string)
  {
    s == "if" || s == "else" || s == "while" || s == "print" || s == "read"
  }

  // ---------------------------------------------------------------------
  // Helpers that consume fixed tokens

  /** `consumeTrailingSemicolon`. */
  function Semicolon(sc: Script, st: PState): (d: Done)
    requires Good(sc, st)
    ensures d.st.pos <= |sc.toks| && Left(sc, d.st) <= Left(sc, st)
    ensures d.st.catalog == st.catalog && d.st.nextAddr == st.nextAddr && d.st.failed == st.failed
  {
    var (t, s1) := Read(sc, st);
    if t.None? then
      Done(Some(if sc.edition == Live then Error(Live, None, COMP_U, NO_TERMINATOR) else ParseException("EOS")), s1)
    else if t.value.code != SEMICOLON then
      Done(Some(if sc.edition == Live then Complaint(Live, t, ILLEGAL_EXPR, UNEXPECTED_KEYWORD)
                else ParseException("Unexpected symbol/keyword")), s1)
    else Done(None, s1)
  }

  /** `consumeLParen` (`code` LPAREN) and `consumeRParen` (`code` RPAREN). */
  function Paren(sc: Script, st: PState, code: TSCode, errType: ErrType): (d: Done)
    requires Good(sc, st)
    ensures d.e.None? ==> Left(sc, d.st) < Left(sc, st)
    ensures d.st.pos <= |sc.toks| && Left(sc, d.st) <= Left(sc, st)
    ensures d.st.catalog == st.catalog && d.st.nextAddr == st.nextAddr && d.st.failed == st.failed
  {
    var (t, s1) := Read(sc, st);
    if t.None? then Done(Some(NullPointer), s1)
    else if t.value.code != code then
      var m := if code == LPAREN then (if errType == ARITHMETIC then UNMATCHED_LPAREN else MISSING_LPAREN)
               else (if errType == ARITHMETIC then UNMATCHED_RPAREN else MISSING_RPAREN);
      Done(Some(Complaint(sc.edition, t, errType, m)), s1)
    else Done(None, s1)
  }

  /** `consumeListSeparator`: a comma is consumed; anything else is put back.
      The live edition answers whether there was a comma, the legacy one always
      answers false. */
  function Separator(sc: Script, st: PState): (p: (Try<bool>, PState))
    requires Good(sc, st)
    ensures p.1.pos <= |sc.toks| && Left(sc, p.1) <= Left(sc, st)
    ensures p.1.catalog == st.catalog && p.1.nextAddr == st.nextAddr && p.1.failed == st.failed
    ensures p.0 == Ok(true) <==> sc.edition == Live && Pending(sc, st) && sc.toks[st.pos].code == COMMA
    ensures p.0 == Ok(false) ==> p.1.eos == st.eos && (p.1.pos == st.pos || sc.edition == Legacy)
  {
    var (t, s1) := Read(sc, st);
    if t.None? then (Thrown(NullPointer), s1)
    else if t.value.code != COMMA then (Ok(false), st)
    else (Ok(sc.edition == Live), s1)
  }

  /** The loop of `discardStatement`: reads up to and including a ';', or to the
      end. */
  function Skip(sc: Script, st: PState): (s: PState)
    requires Good(sc, st)
    ensures s.pos <= |sc.toks| && Left(sc, s) <= Left(sc, st)
    ensures s.catalog == st.catalog && s.nextAddr == st.nextAddr && s.failed == st.failed
    decreases Left(sc, st)
  {
    var (t, s1) := Read(sc, st);
    if t.None? || t.value.code == SEMICOLON then s1 else Skip(sc, s1)
  }

  /** `discardStatement`: skips the rest of the statement and fails at the end
      of the input. */
  function Discard(sc: Script, st: PState): (d: Done)
    requires Good(sc, st)
    ensures d.st.pos <= |sc.toks| && Left(sc, d.st) <= Left(sc, st)
    ensures d.st.catalog == st.catalog && d.st.nextAddr == st.nextAddr && d.st.failed == st.failed
    ensures d.e.Some? ==> d.e.value == EosError(sc.edition)
  {
    var s := Skip(sc, st);
    if s.eos then Done(Some(EosError(sc.edition)), s) else Done(None, s)
  }

  /** Registers `name` as an Int4 variable at the next free address. */
  function Register(st: PState, name: string): PState
  {
    st.(catalog := st.catalog[name := SymbolTables.Entry(name, Int4, st.nextAddr)], nextAddr := st.nextAddr + Size(Int4))
  }

  // ---------------------------------------------------------------------
  // Expressions

  /** `varnumeric`: an integer literal, a variable, or nothing for `true`,
      `false` and any other token, which is consumed. */
  function Varnumeric(sc: Script, st: PState): (p: Parsed)
    requires Good(sc, st)
    ensures Advance(sc, st, p)
  {
    var (t, s1) := Read(sc, st);
    if s1.eos then Parsed(Thrown(EosError(sc.edition)), s1)
    else
      var k := t.value;
      if k.code == INTEGER then
        var n := JavaInt.ParseInt(Text(k));
        if n.None? then Parsed(Thrown(NumberFormat(Text(k))), s1)
        else Parsed(Ok(Some(CT.Tree(CT.IntLit(n.value), k, Int4, []))), s1)
      else if k.code == IDENT then
        if Text(k) == "true" || Text(k) == "false" then Parsed(Ok(None), s1)
        else VariableDeref(sc, st)
      else Parsed(Ok(None), s1)
  }

  /** `variableDeref`: a registered, unreserved name is a variable of its
      registered type; an unregistered one is an error. */
  function VariableDeref(sc: Script, st: PState): (p: Parsed)
    requires Good(sc, st) && Pending(sc, st)
    ensures Advance(sc, st, p)
  {
    var (t, s1) := Read(sc, st);
    var k := t.value;
    if k.code != IDENT then Parsed(Ok(None), st)
    else if IsReserved(Text(k)) then Parsed(Ok(None), s1)
    else if Text(k) !in s1.catalog then Parsed(Thrown(Complaint(sc.edition, Some(k), SYMBOL_REF, UNDEFINED_SYMBOL)), s1)
    else Parsed(Ok(Some(CT.Tree(CT.Var(Text(k)), k, s1.catalog[Text(k)].dtype, []))), s1)
  }

  /** A binary operator's node from its left operand `l`, its token `k` and the
      parse `r` of its right operand: a missing right operand and operands of
      different types are errors (`binaryOpTypeCheck`). */
  function Join(ed: Edition, l: Tree, k: TokenView, kind: CT.Kind, r: Parsed): (j: Try<Tree>)
    requires kind.Binary? || kind.Power?
    requires WellFormed(l) && (Yields(r) ==> WellFormed(Yield(r)))
    ensures j.Ok? <==> Yields(r) && Yield(r).valType == l.valType
    ensures j.Ok? ==> j.value == CT.Tree(kind, k, l.valType, [l, Yield(r)]) && WellFormed(j.value)
  {
    if r.r.Thrown? then Thrown(r.r.e)
    else if r.r.value.None? then Thrown(Complaint(ed, Some(k), ARITHMETIC, MISSING_BIN_RHO))
    else
      var rv := r.r.value.value;
      if !Equals(l.valType, rv.valType) then Thrown(Error(ed, Some(k), ARITHMETIC, TYPE_CHECK_MESSAGE))
      else
        var t := CT.Tree(kind, k, l.valType, [l, rv]);
        assert t.children[0] == l && t.children[1] == rv;
        Ok(t)
  }

  /** `addSub`: a `multDivMod`, then `+` and `-` operators, left to right. */
  function AddSub(sc: Script, st: PState): (p: Parsed)
    requires Good(sc, st)
    ensures Advance(sc, st, p)
    decreases Left(sc, st), 6
  {
    if st.eos then Parsed(Ok(None), st)
    else
      var l := MultDivMod(sc, st);
      if !Yields(l) then l else AddSubLoop(sc, Yield(l), l.st)
  }

  /** The loop of `addSub`, with `root` the tree so far. */
  function AddSubLoop(sc: Script, root: Tree, st: PState): (p: Parsed)
    requires Good(sc, st) && WellFormed(root)
    ensures Keeps(sc, st, p)
    ensures p.r.Ok? ==> Yields(p)
    decreases Left(sc, st), 5
  {
    if st.eos then Parsed(Ok(Some(root)), st)
    else
      var (t, s1) := Read(sc, st);
      if t.None? then Parsed(Thrown(NullPointer), s1)
      else
        var k := t.value;
        if k.code == PLUS || k.code == MINUS then
          var r := MultDivMod(sc, s1);
          var j := Join(sc.edition, root, k, CT.Binary(if k.code == PLUS then CT.PLUS_OP else CT.MINUS_OP), r);
          if j.Thrown? then Parsed(Thrown(j.e), r.st) else AddSubLoop(sc, j.value, r.st)
        else if k.code == INTEGER || k.code == REAL then
          Parsed(Thrown(Complaint(sc.edition, t, ARITHMETIC, INVALID_NUMERIC)), s1)
        else Parsed(Ok(Some(root)), st)
  }

  /** `multDivMod`: a `power`, then `*`, `/` and `mod` operators, left to right. */
  function MultDivMod(sc: Script, st: PState): (p: Parsed)
    requires Good(sc, st)
    ensures Advance(sc, st, p)
    decreases Left(sc, st), 4
  {
    if st.eos then Parsed(Ok(None), st)
    else
      var l := Power(sc, st);
      if !Yields(l) then l else MulLoop(sc, Yield(l), l.st)
  }

  /** The operator a token stands for in `multDivMod`, if any. */
  function MulOp(k: TokenView): Option<CT.Op>
    requires k.value.Some?
  {
    if k.code == MULT then Some(CT.MULT_OP)
    else if k.code == DIV then Some(CT.DIV_OP)
    else if k.code == IDENT && Text(k) == "mod" then Some(CT.MOD_OP)
    else None
  }

  /** The loop of `multDivMod`. An identifier other than `mod` ends it and is
      not put back. */
  function MulLoop(sc: Script, root: Tree, st: PState): (p: Parsed)
    requires Good(sc, st) && WellFormed(root)
    ensures Keeps(sc, st, p)
    ensures p.r.Ok? ==> Yields(p)
    decreases Left(sc, st), 3
  {
    if st.eos then Parsed(Ok(Some(root)), st)
    else
      var (t, s1) := Read(sc, st);
      if t.None? then Parsed(Thrown(NullPointer), s1)
      else
        var k := t.value;
        var op := MulOp(k);
        if op.Some? then
          var r := Power(sc, s1);
          var j := Join(sc.edition, root, k, CT.Binary(op.value), r);
          if j.Thrown? then Parsed(Thrown(j.e), r.st) else MulLoop(sc, j.value, r.st)
        else if k.code == IDENT then Parsed(Ok(Some(root)), s1)
        else if k.code == INTEGER || k.code == REAL then
          Parsed(Thrown(Complaint(sc.edition, t, ARITHMETIC, INVALID_NUMERIC)), s1)
        else Parsed(Ok(Some(root)), st)
  }

  /** `power`: a `negatable`, then `^` operators whose right operands are
      parsed by `power` itself. */
  function Power(sc: Script, st: PState): (p: Parsed)
    requires Good(sc, st)
    ensures Advance(sc, st, p)
    decreases Left(sc, st), 2
  {
    if st.eos then Parsed(Ok(None), st)
    else
      var l := Negatable(sc, st);
      if !Yields(l) then l else PowerLoop(sc, Yield(l), l.st)
  }

  /** The loop of `power`. */
  function PowerLoop(sc: Script, current: Tree, st: PState): (p: Parsed)
    requires Good(sc, st) && WellFormed(current)
    ensures Keeps(sc, st, p)
    ensures p.r.Ok? ==> Yields(p)
    decreases Left(sc, st), 1
  {
    if st.eos then Parsed(Ok(Some(current)), st)
    else
      var (t, s1) := Read(sc, st);
      if t.None? then Parsed(Thrown(NullPointer), s1)
      else
        var k := t.value;
        if k.code == EXP then
          var r := Power(sc, s1);
          var j := Join(sc.edition, current, k, CT.Power, r);
          if j.Thrown? then Parsed(Thrown(j.e), r.st) else PowerLoop(sc, j.value, r.st)
        else if k.code == INTEGER || k.code == REAL then
          Parsed(Thrown(Complaint(sc.edition, t, ARITHMETIC, INVALID_NUMERIC)), s1)
        else Parsed(Ok(Some(current)), st)
  }

  /** `negatable`: a parenthesized `addSub`, a negation, a unary plus, or a
      `varnumeric`. */
  function Negatable(sc: Script, st: PState): (p: Parsed)
    requires Good(sc, st)
    ensures Advance(sc, st, p)
    decreases Left(sc, st), 0
  {
    if st.eos then Parsed(Ok(None), st)
    else
      var (t, s1) := Read(sc, st);
      if s1.eos then Parsed(Thrown(EosError(sc.edition)), s1)
      else
        var k := t.value;
        if k.code == LPAREN then Parenthesized(sc, k, s1)
        else if k.code == MINUS || k.code == PLUS then Signed(sc, k, s1)
        else Varnumeric(sc, st)
  }

  /** `negatable` after a `(` token `k`: an `addSub`, possibly nothing, and
      `)`. */
  function Parenthesized(sc: Script, k: TokenView, st: PState): (p: Parsed)
    requires Good(sc, st)
    ensures Keeps(sc, st, p)
    decreases Left(sc, st), 7
  {
    var c := AddSub(sc, st);
    if c.r.Thrown? then c
    else
      var (close, s2) := Read(sc, c.st);
      if close.None? then Parsed(Thrown(NullPointer), s2)
      else if close.value.code != RPAREN then
        Parsed(Thrown(Complaint(sc.edition, Some(k), ARITHMETIC, UNMATCHED_RPAREN)), s2)
      else Parsed(c.r, s2)
  }

  /** `negatable` after a `-` or `+` token `k`: a sign may not follow, and an
      operand must; `-` negates it. The error for a second sign is reported at
      that sign after `-`, at `k` after `+`. */
  function Signed(sc: Script, k: TokenView, st: PState): (p: Parsed)
    requires Good(sc, st)
    ensures Keeps(sc, st, p)
    decreases Left(sc, st), 1
  {
    var (n, s2) := Read(sc, st);
    if n.None? then Parsed(Thrown(NullPointer), s2)
    else if n.value.code == PLUS || n.value.code == MINUS then
      Parsed(Thrown(Complaint(sc.edition, if k.code == MINUS then n else Some(k), ARITHMETIC, UNEXPECTED_ARITH_TOKEN)), s2)
    else
      var sub := Negatable(sc, st);
      if sub.r.Thrown? then sub
      else if sub.r.value.None? then
        Parsed(Thrown(Complaint(sc.edition, Some(k), ARITHMETIC, MISSING_UNARY_RHO)), sub.st)
      else if k.code == MINUS then
        var v := Yield(sub);
        var neg := CT.Tree(CT.Neg, k, v.valType, [v]);
        assert neg.children[0] == v;
        Parsed(Ok(Some(neg)), sub.st)
      else sub
  }

  // ---------------------------------------------------------------------
  // Statements

  /** `stringLiteralRef`: a STRING token, or nothing with the token put back. */
  function StringLiteral(sc: Script, st: PState): (p: Parsed)
    requires Good(sc, st)
    ensures Advance(sc, st, p)
    ensures p.r.Thrown? <==> !Pending(sc, st)
    ensures Yields(p) <==> Pending(sc, st) && sc.toks[st.pos].code == STRING
    ensures Yields(p) ==> var k := sc.toks[st.pos];
      Yield(p) == CT.Tree(CT.StringLit(Text(k)), k, Imm_Str, []) && p.st == st.(pos := st.pos + 1)
    ensures p.r.Ok? && !Yields(p) ==> p.st == st
  {
    var (t, s1) := Read(sc, st);
    if t.None? then Parsed(Thrown(NullPointer), s1)
    else if t.value.code != STRING then Parsed(Ok(None), st)
    else Parsed(Ok(Some(CT.Tree(CT.StringLit(Text(t.value)), t.value, Imm_Str, []))), s1)
  }

  /** `rvalue`: a string literal or an arithmetic expression. */
  function Rvalue(sc: Script, st: PState): (p: Parsed)
    requires Good(sc, st)
    ensures Advance(sc, st, p)
  {
    var s := StringLiteral(sc, st);
    if !s.r.Ok? || s.r.value.Some? then s else AddSub(sc, s.st)
  }

  /** `lvalue`: an unreserved identifier names an Int4 variable, registered
      now if it is new; any other token is consumed and gives nothing. */
  function Lvalue(sc: Script, st: PState): (p: Parsed)
    requires Good(sc, st) && Pending(sc, st)
    ensures Advance(sc, st, p) && p.r.Ok?
  {
    var (t, s1) := Read(sc, st);
    var k := t.value;
    if k.code != IDENT || IsReserved(Text(k)) then Parsed(Ok(None), s1)
    else
      var s2 := if Text(k) in s1.catalog then s1 else Register(s1, Text(k));
      Parsed(Ok(Some(CT.Tree(CT.Lvalue(Text(k)), k, Int4, []))), s2)
  }

  /** `assignment`: lvalue, `<-`, rvalue and ';'. Until the ';' it is
      speculative: should the lvalue, the operator or the rvalue be missing,
      the stream is rewound to where the assignment began. */
  function Assignment(sc: Script, st: PState): (p: Parsed)
    requires Good(sc, st) && Pending(sc, st)
    ensures Advance(sc, st, p)
  {
    var l := Lvalue(sc, st);
    if l.r.value.None? then Parsed(Ok(None), Rewind(l.st, st.pos))
    else AssignFrom(sc, st, Yield(l), l.st)
  }

  /** The rest of an assignment that began at `begin`, after its lvalue `lv`. */
  function AssignFrom(sc: Script, begin: PState, lv: Tree, st: PState): (p: Parsed)
    requires Good(sc, st) && Pending(sc, begin) && Left(sc, st) < Left(sc, begin)
    requires WellFormed(lv) && lv.valType == Int4 && begin.failed == st.failed
    ensures Advance(sc, begin, p)
  {
    var (a, s2) := Read(sc, st);
    if a.None? then Parsed(Thrown(NullPointer), s2)
    else if a.value.code != ASSIGN then Parsed(Ok(None), Rewind(s2, begin.pos))
    else
      var v := Rvalue(sc, s2);
      if v.r.Thrown? then v
      else if v.r.value.None? then Parsed(Ok(None), Rewind(v.st, begin.pos))
      else AssignEnd(sc, a.value, lv, Yield(v), v.st)
  }

  /** The ';' of an assignment and its type check. */
  function AssignEnd(sc: Script, a: TokenView, lv: Tree, rv: Tree, st: PState): (p: Parsed)
    requires Good(sc, st) && WellFormed(lv) && lv.valType == Int4 && WellFormed(rv)
    ensures Keeps(sc, st, p)
  {
    var semi := Semicolon(sc, st);
    if semi.e.Some? then Parsed(Thrown(semi.e.value), semi.st)
    else if !Equals(lv.valType, rv.valType) then Parsed(Thrown(ParseException(ASSIGN_MISMATCH)), semi.st)
    else
      var t := CT.Tree(CT.Assign, a, Empty, [lv, rv]);
      assert t.children[0] == lv && t.children[1] == rv;
      Parsed(Ok(Some(t)), semi.st)
  }

  /** `clear`: the keyword, `(`, `)` and ';'. */
  function ClearStatement(sc: Script, st: PState): (p: Parsed)
    requires Good(sc, st) && Pending(sc, st)
    ensures Advance(sc, st, p) && !(p.r.Ok? && p.r.value.None?)
  {
    var (ct, s1) := Read(sc, st);
    ClearCall(sc, ct.value, s1)
  }

  /** The rest of `clear` after the keyword `ct`: `(`, `)` and ';'. */
  function ClearCall(sc: Script, ct: TokenView, st: PState): (p: Parsed)
    requires Good(sc, st)
    ensures Keeps(sc, st, p) && !(p.r.Ok? && p.r.value.None?)
  {
    var lp := Paren(sc, st, LPAREN, FUNCTION_CALL);
    if lp.e.Some? then Parsed(Thrown(lp.e.value), lp.st)
    else
      var rp := Paren(sc, lp.st, RPAREN, FUNCTION_CALL);
      if rp.e.Some? then Parsed(Thrown(rp.e.value), rp.st)
      else
        var semi := Semicolon(sc, rp.st);
        if semi.e.Some? then Parsed(Thrown(semi.e.value), semi.st)
        else Parsed(Ok(Some(CT.Tree(CT.Clear, ct, Empty, []))), semi.st)
  }

  /** The separator check of `print`'s loop, before an argument: live, a
      second argument needs a comma before it; legacy, it would need one only
      once a list had begun, which never happens. */
  predicate MissingSeparator(ed: Edition, count: nat, inList: bool, separated: bool)
  {
    if ed == Live then count > 0 && (!inList || !separated) else inList && !separated
  }

  function SeparatorMessage(ed: Edition): string
  {
    if ed == Live then "Expected argument list separator. Found" else "Expected argument list separator"
  }

  /** `print`: the keyword and `(`, then the arguments. */
  function PrintStatement(sc: Script, st: PState): (p: Parsed)
    requires Good(sc, st) && Pending(sc, st)
    ensures Advance(sc, st, p) && !(p.r.Ok? && p.r.value.None?)
  {
    var (pt, s1) := Read(sc, st);
    var lp := Paren(sc, s1, LPAREN, FUNCTION_CALL);
    if lp.e.Some? then Parsed(Thrown(lp.e.value), lp.st)
    else PrintArgs(sc, pt.value, [], false, false, lp.st)
  }

  /** The loop of `print`: arguments up to a `)` or a ';', then ';'. `inList`
      and `separated` are the loop's flags, `args` the arguments so far. */
  function PrintArgs(sc: Script, pt: TokenView, args: seq<Tree>, inList: bool, separated: bool, st: PState): (p: Parsed)
    requires Good(sc, st) && forall i :: 0 <= i < |args| ==> WellFormed(args[i])
    ensures Advance(sc, st, p) && !(p.r.Ok? && p.r.value.None?)
    ensures Yields(p) ==> Yield(p) == CT.Tree(CT.Print, pt, Empty, Yield(p).children) && args <= Yield(p).children
    decreases Left(sc, st), 1
  {
    var (a, s1) := Read(sc, st);
    if a.None? then Parsed(Thrown(NullPointer), s1)
    else if a.value.code == RPAREN || a.value.code == SEMICOLON then PrintEnd(sc, pt, args, s1)
    else PrintNext(sc, pt, args, inList, separated, st)
  }

  /** One turn of `print`'s loop at an argument's first token: the separator
      check, the argument, and the rest of the loop. */
  function PrintNext(sc: Script, pt: TokenView, args: seq<Tree>, inList: bool, separated: bool, st: PState): (p: Parsed)
    requires Good(sc, st) && Pending(sc, st) && forall i :: 0 <= i < |args| ==> WellFormed(args[i])
    ensures Advance(sc, st, p) && !(p.r.Ok? && p.r.value.None?)
    ensures Yields(p) ==> Yield(p) == CT.Tree(CT.Print, pt, Empty, Yield(p).children) && args <= Yield(p).children
    decreases Left(sc, st), 0
  {
    var a := sc.toks[st.pos];
    if MissingSeparator(sc.edition, |args|, inList, separated) then
      Parsed(Thrown(Error(sc.edition, Some(a), FUNCTION_CALL, SeparatorMessage(sc.edition))), st.(pos := st.pos + 1))
    else
      var n := NextArgument(sc, st);
      if n.r.Thrown? then Parsed(Thrown(n.r.e), n.st)
      else
        var (v, c) := n.r.value;
        PrintArgs(sc, pt, args + [v], if sc.edition == Live then inList || c else c, c, n.st)
  }

  /** What follows an argument's parse `v`: a missing argument and the end of
      input are errors; otherwise the argument and whether a comma followed. */
  datatype Arg = Arg(r: Try<(Tree, bool)>, st: PState)

  function Argument(sc: Script, v: Parsed): (n: Arg)
    requires Good(sc, v.st)
    ensures n.st.pos <= |sc.toks| && Left(sc, n.st) <= Left(sc, v.st) && n.st.failed == v.st.failed
    ensures n.r.Ok? ==> Yields(v) && n.r.value.0 == Yield(v)
    ensures v.r.Thrown? ==> n == Arg(Thrown(v.r.e), v.st)
  {
    if v.r.Thrown? then Arg(Thrown(v.r.e), v.st)
    else if v.r.value.None? then Arg(Thrown(Complaint(sc.edition, Some(NONE_TOKEN), ILLEGAL_EXPR, METHOD_ARGUMENT)), v.st)
    else if v.st.eos then Arg(Thrown(EosError(sc.edition)), v.st)
    else
      var (c, s3) := Separator(sc, v.st);
      if c.Thrown? then Arg(Thrown(c.e), s3) else Arg(Ok((Yield(v), c.value)), s3)
  }

  /** The argument that begins at the token at `st`: a leading comma is
      consumed, anything else is put back, and the argument follows. */
  function NextArgument(sc: Script, st: PState): (n: Arg)
    requires Good(sc, st) && Pending(sc, st)
    ensures n.st.pos <= |sc.toks| && Left(sc, n.st) <= Left(sc, st) && n.st.failed == st.failed
    ensures n.r.Ok? ==> Left(sc, n.st) < Left(sc, st) && WellFormed(n.r.value.0)
  {
    Argument(sc, Rvalue(sc, ArgumentStart(sc, st)))
  }

  /** Where the argument's rvalue starts: past a comma, or at the token. */
  function ArgumentStart(sc: Script, st: PState): (s: PState)
    requires Good(sc, st) && Pending(sc, st)
    ensures Good(sc, s) && s.failed == st.failed && Left(sc, s) <= Left(sc, st)
    ensures s == st || s == st.(pos := st.pos + 1)
  {
    if sc.toks[st.pos].code != COMMA then st else st.(pos := st.pos + 1)
  }

  /** The `)` or ';' that ends `print`'s loop has been read: then ';'. */
  function PrintEnd(sc: Script, pt: TokenView, args: seq<Tree>, st: PState): (p: Parsed)
    requires Good(sc, st) && forall i :: 0 <= i < |args| ==> WellFormed(args[i])
    ensures Keeps(sc, st, p) && !(p.r.Ok? && p.r.value.None?)
    ensures Yields(p) ==> Yield(p) == CT.Tree(CT.Print, pt, Empty, args)
  {
    var semi := Semicolon(sc, st);
    if semi.e.Some? then Parsed(Thrown(semi.e.value), semi.st)
    else
      ListWellFormed(CT.Tree(CT.Print, pt, Empty, args));
      Parsed(Ok(Some(CT.Tree(CT.Print, pt, Empty, args))), semi.st)
  }

  /** `statement`: nothing at the end, at a comment or at a ';' (consumed);
      otherwise `print`, `clear`, an assignment or an rvalue, and when none
      parses, the edition's fallback. */
  function Statement(sc: Script, st: PState): (p: Parsed)
    requires Good(sc, st)
    ensures Steps(sc, st, p)
  {
    var (t, s1) := Read(sc, st);
    if t.None? || t.value.code == COMMENT || t.value.code == SEMICOLON then Parsed(Ok(None), s1)
    else
      // The token is put back; the stream has not ended, so `abortIfEOS`
      // passes. `print` and `clear` never answer nothing.
      var k := t.value;
      if k.code == IDENT && Text(k) == "print" then PrintStatement(sc, st)
      else if k.code == IDENT && Text(k) == "clear" then ClearStatement(sc, st)
      else Attempts(sc, k, st)
  }

  /** The statement that does not begin with `print` or `clear` (its first
      token is `k`): an assignment, else an rvalue, else the fallback. */
  function Attempts(sc: Script, k: TokenView, st: PState): (p: Parsed)
    requires Good(sc, st) && Pending(sc, st) && k == sc.toks[st.pos]
    ensures Steps(sc, st, p)
  {
    var a := Assignment(sc, st);
    if !a.r.Ok? || a.r.value.Some? then a
    else
      var v := Rvalue(sc, a.st);
      if !v.r.Ok? || v.r.value.Some? then v
      else Unparsed(sc, k, v.st)
  }

  /** What `statement` does when nothing parses. Live: discard the statement
      and throw UNEXPECTED_KEYWORD at its first token. Legacy: unless the flag
      is already set, discard the statement (its ParseException is swallowed)
      and set the flag; answer nothing. */
  function Unparsed(sc: Script, k: TokenView, st: PState): (p: Parsed)
    requires Good(sc, st) && k.value.Some?
    ensures Steps(sc, st, p) && !Yields(p)
    ensures sc.edition == Live ==> p.r.Thrown? && p.r.e.ParseException?
    ensures sc.edition == Live && Discard(sc, st).e.None? ==>
      p == Parsed(Thrown(Complaint(Live, Some(k), ILLEGAL_EXPR, UNEXPECTED_KEYWORD)), Discard(sc, st).st)
    ensures sc.edition == Legacy && st.failed ==> p == Parsed(Ok(None), st)
    ensures sc.edition == Legacy && p.r.Ok? ==> p.st.failed
    ensures sc.edition == Legacy && !st.failed ==> p.st.pos == Discard(sc, st).st.pos && (p.r.Ok? <==> Discard(sc, st).e.None?)
  {
    match sc.edition
    case Live =>
      var d := Discard(sc, st);
      if d.e.Some? then Parsed(Thrown(d.e.value), d.st)
      else Parsed(Thrown(Complaint(Live, Some(k), ILLEGAL_EXPR, UNEXPECTED_KEYWORD)), d.st)
    case Legacy =>
      if st.failed then Parsed(Ok(None), st)
      else
        var d := Discard(sc, st);
        if d.e.Some? && !d.e.value.ParseException? then Parsed(Thrown(d.e.value), d.st)
        else Parsed(Ok(None), d.st.(failed := true))
  }

  // ---------------------------------------------------------------------
  // Entry points

  /** What an entry point answers: the tree or nothing, or the exception that
      escapes; where the parser then stands; and the messages sent to the
      observer. */
  datatype Outcome = Outcome(r: Try<Option<Tree>>, st: PState, log: seq<string>)

  /** `statementBlock`, from its loop on: `stmts` are the statements parsed so
      far. The loop ends at the end of input or at a `]`, and also at the first
      statement that answers nothing or throws. */
  function Block(sc: Script, stmts: seq<Tree>, st: PState, log: seq<string>): (o: Outcome)
    requires Good(sc, st) && forall i :: 0 <= i < |stmts| ==> WellFormed(stmts[i])
    ensures o.st.pos <= |sc.toks| && (st.failed ==> o.st.failed) && log <= o.log
    ensures o.r.Ok? && o.r.value.Some? ==> var b := o.r.value.value;
      b.kind == CT.Block && stmts <= b.children && WellFormed(b)
    decreases Left(sc, st)
  {
    ListWellFormed(BlockOf(stmts));
    var (t, s1) := Read(sc, st);
    if t.None? || t.value.code == RBRACKET then Outcome(Ok(Some(BlockOf(stmts))), s1, log)
    else
      var n := Statement(sc, st);
      if Yields(n) then Block(sc, stmts + [Yield(n)], n.st, log)
      else if n.r.Ok? then Outcome(Ok(Some(BlockOf(stmts))), n.st, log)
      else if !n.r.e.ParseException? then Outcome(Thrown(n.r.e), n.st, log)
      else Recover(sc, stmts, n.r.e.message, n.st, log)
  }

  /** The catch of `statementBlock` for a statement's ParseException. Live: the
      message goes to the observer, the flag is set, and unless at the end the
      rest of the statement is discarded; should that fail, its message goes to
      the observer too and the block is lost. Legacy: the statement is
      discarded and the flag set; the discard's own failure at the end of the
      input is a RuntimeException, which escapes before the flag is set.
      Either way the loop then ends. */
  function Recover(sc: Script, stmts: seq<Tree>, message: string, st: PState, log: seq<string>): (o: Outcome)
    requires Good(sc, st) && forall i :: 0 <= i < |stmts| ==> WellFormed(stmts[i])
    ensures o.st.pos <= |sc.toks| && (st.failed ==> o.st.failed) && log <= o.log
    ensures sc.edition == Live || o.r.Ok? ==> o.st.failed
    ensures o.r.Ok? && o.r.value.Some? ==> o.r.value.value == BlockOf(stmts) && WellFormed(BlockOf(stmts))
    ensures sc.edition == Live ==> o.r.Ok? && log + [message] <= o.log
    ensures sc.edition == Live && !st.eos && Discard(sc, st.(failed := true)).e.Some? ==>
      o.r == Ok(None) && o.log == log + [message, Discard(sc, st.(failed := true)).e.value.message]
    ensures sc.edition == Live && (st.eos || Discard(sc, st.(failed := true)).e.None?) ==>
      o.r == Ok(Some(BlockOf(stmts))) && o.log == log + [message]
    ensures sc.edition == Legacy ==> o.log == log && (o.r.Thrown? <==> Discard(sc, st).e.Some?)
  {
    ListWellFormed(BlockOf(stmts));
    match sc.edition
    case Live =>
      var s := st.(failed := true);
      var lg := log + [message];
      if s.eos then Outcome(Ok(Some(BlockOf(stmts))), s, lg)
      else
        var d := Discard(sc, s);
        // The live discard throws only ParseExceptions, all of which are caught.
        if d.e.Some? then Outcome(Ok(None), d.st, lg + [d.e.value.message])
        else Outcome(Ok(Some(BlockOf(stmts))), d.st, lg)
    case Legacy =>
      var d := Discard(sc, st);
      if d.e.Some? && !d.e.value.ParseException? then Outcome(Thrown(d.e.value), d.st, log)
      else Outcome(Ok(Some(BlockOf(stmts))), d.st.(failed := true), log)
  }

  /** The scan's message for one token: one if it is a reserved identifier. */
  function Flagged(t: TokenView): (msgs: seq<string>)
    requires t.value.Some?
    ensures msgs == [] <==> !(t.code == IDENT && IsReserved(Text(t)))
  {
    if t.code == IDENT && IsReserved(Text(t)) then [Format(Some(t), ERROR, ILLEGAL_EXPR, COMMAND_LINE_MESSAGE).value] else []
  }

  /** The observer's messages after the live command line's scan from the
      token at `i` on, when they were `acc` before it: one more for each
      reserved identifier, in order. */
  function Scanned(toks: seq<TokenView>, i: nat, acc: seq<string>): (r: seq<string>)
    requires Lexed(toks) && i <= |toks|
    ensures acc <= r
    decreases |toks| - i
  {
    if i == |toks| then acc else Scanned(toks, i + 1, acc + Flagged(toks[i]))
  }

  /** The scan adds a message exactly when a reserved identifier is among
      the tokens it scans. */
  lemma {:induction false} ScannedReports(toks: seq<TokenView>, i: nat, acc: seq<string>)
    requires Lexed(toks) && i <= |toks|
    ensures |Scanned(toks, i, acc)| == |acc| <==> (forall j :: i <= j < |toks| ==> !(toks[j].code == IDENT && IsReserved(Text(toks[j]))))
    decreases |toks| - i
  {
    if i < |toks| {
      ScannedReports(toks, i + 1, acc + Flagged(toks[i]));
    }
  }

  /** The scan of one more token. */
  lemma ScannedStep(toks: seq<TokenView>, i: nat, acc: seq<string>)
    requires Lexed(toks) && i < |toks|
    ensures Scanned(toks, i, acc) == Scanned(toks, i + 1, acc + Flagged(toks[i]))
  {
  }

  /** `commandLine`. Live: every token is scanned and each reserved identifier
      reported; if there was one the answer is nothing and the flag is set.
      Otherwise the stream is rewound and one statement parsed; its
      ParseException is reported and gives nothing. Legacy: one statement,
      no filter, no catch.

      The callers clear the stream just before the command line, so its
      buffer holds the tokens from `st.pos` on. The scan marks the first of
      them, which keeps them all buffered, and the closing fetch of NONE on a
      buffer of `BUFFER_SIZE` tokens or more leaves the cursor one past the
      end (`TokenStreams.CommandLineScan`). The rewind then reads the position
      just past the buffer and throws IndexOutOfBoundsException, leaving the
      stream at its end. */
  function CommandLine(sc: Script, st: PState, log: seq<string>): (o: Outcome)
    requires Good(sc, st)
    ensures o.st.pos <= |sc.toks| && log <= o.log
  {
    if st.eos then Outcome(Ok(None), st, log)
    else if sc.edition == Legacy then
      var n := Statement(sc, st);
      Outcome(n.r, n.st, log)
    else if st.pos == |sc.toks| then Outcome(Thrown(NullPointer), st.(eos := true), log)
    else
      var reported := Scanned(sc.toks, st.pos, log);
      if |reported| > |log| then Outcome(Ok(None), st.(pos := |sc.toks|, eos := true, failed := true), reported)
      else if |sc.toks| - st.pos >= TokenStreams.BUFFER_SIZE then
        Outcome(Thrown(IndexOutOfBounds(|sc.toks| - st.pos)), st.(pos := |sc.toks|, eos := true), log)
      else
        // Rewinding to the first token restores `st`.
        var n := Statement(sc, st);
        if n.r.Thrown? && n.r.e.ParseException? then Outcome(Ok(None), n.st, log + [n.r.e.message])
        else Outcome(n.r, n.st, log)
  }
}
