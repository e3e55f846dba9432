/**
 * The productions as the program runs them: methods that read from and put
 * back into a token cursor, register names in the shared symbol table, and
 * set the parse-failed flag and send messages to the observer. Each method
 * is proved to answer, and to leave the parser, exactly as the production
 * function of the same name says.
 */
module ParserObjects {
  import opened TokenCodes
  import opened Tokens
  import opened Exceptions
  import opened DataTypes
  import opened CompilerErrors
  import JavaInt
  import SymbolTables
  import CT = CodeTrees
  import P = Parsers
  import TokenStreams

  /** What one pass of `print`'s loop comes to: the statement's outcome, or
      the next argument and whether a comma came before it. */
  datatype PrintPass = Stop(r: Try<Option<P.Tree>>) | Next(arg: P.Tree, comma: bool)

  /** What one pass of `statementBlock`'s loop comes to: the block's outcome,
      or one more statement. */
  datatype BlockPass = Ended(r: Try<Option<P.Tree>>) | Added(stmt: P.Tree)

  class Parser {
    /** Which edition's productions run, and the tokens the stream holds. */
    const sc: P.Script
    /** The stream's read position and end flag. */
    var pos: nat
    var eos: bool
    /** The observer: the parse-failed flag and the messages sent to it. */
    var failed: bool
    var log: seq<string>
    /** The symbol table the productions register variables in. */
    const table: SymbolTables.SymbolTable

    predicate Valid()
      reads this
    {
      P.Lexed(sc.toks) && pos <= |sc.toks|
    }

    /** Where the parser stands, as the production functions see it. */
    function Snap(): P.PState
      reads this, table, table.memory
    {
      P.PState(pos, eos, table.catalog, table.memory.nextAddr, failed)
    }

    constructor (sc: P.Script, table: SymbolTables.SymbolTable)
      requires P.Lexed(sc.toks)
      ensures Valid() && this.sc == sc && this.table == table
      ensures pos == 0 && !eos && !failed && log == []
    {
      this.sc := sc;
      this.table := table;
      pos := 0;
      eos := false;
      failed := false;
      log := [];
    }

    // -------------------------------------------------------------------
    // The stream

    /** `read()`. */
    method Read() returns (t: Option<TokenView>)
      requires Valid()
      modifies this
      ensures Valid() && (t, Snap()) == P.Read(sc, old(Snap())) && log == old(log)
      ensures failed == old(failed) && (t.Some? <==> !eos)
      ensures t.Some? ==> pos == old(pos) + 1 && t.value == sc.toks[old(pos)]
      ensures t.None? ==> pos == old(pos)
    {
      t := Advance();
    }

    /** The cursor's step under `read()`: the next token, or the end of the
        stream, which is then remembered. */
    method Advance() returns (t: Option<TokenView>)
      requires Valid()
      modifies this
      ensures Valid() && log == old(log) && failed == old(failed)
      ensures t.Some? <==> !old(eos) && old(pos) < |sc.toks|
      ensures t.Some? ==> pos == old(pos) + 1 && t.value == sc.toks[old(pos)] && !eos
      ensures t.None? ==> pos == old(pos) && eos
    {
      if eos {
        return None;
      }
      if pos < |sc.toks| {
        t := Some(sc.toks[pos]);
        pos := pos + 1;
      } else {
        t := None;
        eos := true;
      }
    }

    /** `unread(token)` of the token just read. */
    method Unread()
      requires Valid() && pos > 0
      modifies this
      ensures Valid() && Snap() == old(Snap()).(pos := old(pos) - 1) && log == old(log)
    {
      pos := pos - 1;
    }

    /** `rewind(begin)` to the token at `p`. */
    method Rewind(p: nat)
      requires Valid() && p <= |sc.toks|
      modifies this
      ensures Valid() && Snap() == P.Rewind(old(Snap()), p) && log == old(log)
    {
      pos := p;
      eos := false;
    }

    // -------------------------------------------------------------------
    // Expressions

    /** `varnumeric`. */
    method Varnumeric() returns (r: Try<Option<P.Tree>>)
      requires Valid()
      modifies this
      ensures Valid() && P.Parsed(r, Snap()) == P.Varnumeric(sc, old(Snap())) && log == old(log)
    {
      ghost var st := Snap();
      var t := Read();
      if eos {
        assert P.Varnumeric(sc, st) == P.Parsed(Thrown(P.EosError(sc.edition)), Snap());
        return Thrown(P.EosError(sc.edition));
      }
      var k := t.value;
      if k.code == INTEGER {
        var n := JavaInt.ParseInt(P.Text(k));
        if n.None? {
          assert P.Varnumeric(sc, st) == P.Parsed(Thrown(NumberFormat(P.Text(k))), Snap());
          return Thrown(NumberFormat(P.Text(k)));
        }
        assert P.Varnumeric(sc, st) == P.Parsed(Ok(Some(CT.Tree(CT.IntLit(n.value), k, Int4, []))), Snap());
        return Ok(Some(CT.Tree(CT.IntLit(n.value), k, Int4, [])));
      } else if k.code == IDENT {
        if P.Text(k) == "true" || P.Text(k) == "false" {
          return Ok(None);
        }
        Unread();
        r := VariableDeref();
      } else {
        return Ok(None);
      }
    }

    /** `variableDeref`. */
    method VariableDeref() returns (r: Try<Option<P.Tree>>)
      requires Valid() && P.Pending(sc, Snap())
      modifies this
      ensures Valid() && P.Parsed(r, Snap()) == P.VariableDeref(sc, old(Snap())) && log == old(log)
    {
      var t := Read();
      var k := t.value;
      if k.code != IDENT {
        Unread();
        return Ok(None);
      }
      var name := P.Text(k);
      if P.IsReserved(name) {
        return Ok(None);
      }
      if !table.IsRegistered(name) {
        return Thrown(P.Complaint(sc.edition, Some(k), SYMBOL_REF, UNDEFINED_SYMBOL));
      }
      var params := table.GetVariableParams(name);
      return Ok(Some(CT.Tree(CT.Var(name), k, params.value.dtype, [])));
    }

    /** `addSub`. */
    method AddSub() returns (r: Try<Option<P.Tree>>)
      requires Valid()
      modifies this
      ensures Valid() && P.Parsed(r, Snap()) == P.AddSub(sc, old(Snap())) && log == old(log)
      decreases P.Left(sc, Snap()), 6
    {
      if eos {
        return Ok(None);
      }
      ghost var st := Snap();
      var l := MultDivMod();
      if !(l.Ok? && l.value.Some?) {
        return l;
      }
      var root := l.value.value;
      while !eos
        invariant Valid() && log == old(log) && P.Left(sc, Snap()) < P.Left(sc, st)
        invariant P.WellFormed(root) && P.AddSubLoop(sc, root, Snap()) == P.AddSub(sc, st)
        decreases P.Left(sc, Snap())
      {
        ghost var s := Snap();
        var t := Read();
        if t.None? {
          return Thrown(NullPointer);
        }
        var k := t.value;
        if k.code == PLUS || k.code == MINUS {
          var rr := MultDivMod();
          var j := P.Join(sc.edition, root, k, CT.Binary(if k.code == PLUS then CT.PLUS_OP else CT.MINUS_OP), P.Parsed(rr, Snap()));
          if j.Thrown? {
            return Thrown(j.e);
          }
          root := j.value;
        } else if k.code == INTEGER || k.code == REAL {
          return Thrown(P.Complaint(sc.edition, t, ARITHMETIC, INVALID_NUMERIC));
        } else {
          Unread();
          return Ok(Some(root));
        }
      }
      return Ok(Some(root));
    }

    /** `multDivMod`. */
    method MultDivMod() returns (r: Try<Option<P.Tree>>)
      requires Valid()
      modifies this
      ensures Valid() && P.Parsed(r, Snap()) == P.MultDivMod(sc, old(Snap())) && log == old(log)
      decreases P.Left(sc, Snap()), 4
    {
      if eos {
        return Ok(None);
      }
      ghost var st := Snap();
      var l := Power();
      if !(l.Ok? && l.value.Some?) {
        return l;
      }
      var root := l.value.value;
      while !eos
        invariant Valid() && log == old(log) && P.Left(sc, Snap()) < P.Left(sc, st)
        invariant P.WellFormed(root) && P.MulLoop(sc, root, Snap()) == P.MultDivMod(sc, st)
        decreases P.Left(sc, Snap())
      {
        var t := Read();
        if t.None? {
          return Thrown(NullPointer);
        }
        var k := t.value;
        var op := P.MulOp(k);
        if op.Some? {
          var rr := Power();
          var j := P.Join(sc.edition, root, k, CT.Binary(op.value), P.Parsed(rr, Snap()));
          if j.Thrown? {
            return Thrown(j.e);
          }
          root := j.value;
        } else if k.code == IDENT {
          return Ok(Some(root));
        } else if k.code == INTEGER || k.code == REAL {
          return Thrown(P.Complaint(sc.edition, t, ARITHMETIC, INVALID_NUMERIC));
        } else {
          Unread();
          return Ok(Some(root));
        }
      }
      return Ok(Some(root));
    }

    /** `power`. */
    method Power() returns (r: Try<Option<P.Tree>>)
      requires Valid()
      modifies this
      ensures Valid() && P.Parsed(r, Snap()) == P.Power(sc, old(Snap())) && log == old(log)
      decreases P.Left(sc, Snap()), 2
    {
      if eos {
        return Ok(None);
      }
      ghost var st := Snap();
      var l := Negatable();
      if !(l.Ok? && l.value.Some?) {
        return l;
      }
      var current := l.value.value;
      while !eos
        invariant Valid() && log == old(log) && P.Left(sc, Snap()) < P.Left(sc, st)
        invariant P.WellFormed(current) && P.PowerLoop(sc, current, Snap()) == P.Power(sc, st)
        decreases P.Left(sc, Snap())
      {
        var t := Read();
        if t.None? {
          return Thrown(NullPointer);
        }
        var k := t.value;
        if k.code == EXP {
          var rr := Power();
          var j := P.Join(sc.edition, current, k, CT.Power, P.Parsed(rr, Snap()));
          if j.Thrown? {
            return Thrown(j.e);
          }
          current := j.value;
        } else if k.code == INTEGER || k.code == REAL {
          return Thrown(P.Complaint(sc.edition, t, ARITHMETIC, INVALID_NUMERIC));
        } else {
          Unread();
          return Ok(Some(current));
        }
      }
      return Ok(Some(current));
    }

    /** `negatable`. */
    method Negatable() returns (r: Try<Option<P.Tree>>)
      requires Valid()
      modifies this
      ensures Valid() && P.Parsed(r, Snap()) == P.Negatable(sc, old(Snap())) && log == old(log)
      decreases P.Left(sc, Snap()), 0
    {
      if eos {
        return Ok(None);
      }
      ghost var st := Snap();
      var t := Read();
      if eos {
        assert P.Negatable(sc, st) == P.Parsed(Thrown(P.EosError(sc.edition)), Snap());
        return Thrown(P.EosError(sc.edition));
      }
      var k := t.value;
      ghost var s1 := Snap();
      if k.code == LPAREN {
        assert P.Negatable(sc, st) == P.Parenthesized(sc, k, s1);
        r := Parenthesized(k);
      } else if k.code == MINUS || k.code == PLUS {
        assert P.Negatable(sc, st) == P.Signed(sc, k, s1);
        r := Signed(k);
      } else {
        assert P.Negatable(sc, st) == P.Varnumeric(sc, st);
        Unread();
        r := Varnumeric();
      }
    }

    /** `negatable` after `(`. */
    method Parenthesized(k: TokenView) returns (r: Try<Option<P.Tree>>)
      requires Valid()
      modifies this
      ensures Valid() && P.Parsed(r, Snap()) == P.Parenthesized(sc, k, old(Snap())) && log == old(log)
      decreases P.Left(sc, Snap()), 7
    {
      r := AddSub();
      if r.Thrown? {
        return;
      }
      var close := Read();
      if close.None? {
        return Thrown(NullPointer);
      }
      if close.value.code != RPAREN {
        return Thrown(P.Complaint(sc.edition, Some(k), ARITHMETIC, UNMATCHED_RPAREN));
      }
    }

    /** `negatable` after `-` or `+`. */
    method Signed(k: TokenView) returns (r: Try<Option<P.Tree>>)
      requires Valid()
      modifies this
      ensures Valid() && P.Parsed(r, Snap()) == P.Signed(sc, k, old(Snap())) && log == old(log)
      decreases P.Left(sc, Snap()), 1
    {
      ghost var st := Snap();
      var n := Read();
      if n.None? {
        assert P.Signed(sc, k, st) == P.Parsed(Thrown(NullPointer), Snap());
        return Thrown(NullPointer);
      }
      if n.value.code == PLUS || n.value.code == MINUS {
        r := Thrown(P.Complaint(sc.edition, if k.code == MINUS then n else Some(k), ARITHMETIC, UNEXPECTED_ARITH_TOKEN));
        assert P.Signed(sc, k, st) == P.Parsed(r, Snap());
        return;
      }
      Unread();
      assert Snap() == st;
      r := Negatable();
      ghost var sub := P.Negatable(sc, st);
      if r.Thrown? {
        assert P.Signed(sc, k, st) == sub;
        return;
      }
      if r.value.None? {
        r := Thrown(P.Complaint(sc.edition, Some(k), ARITHMETIC, MISSING_UNARY_RHO));
        assert P.Signed(sc, k, st) == P.Parsed(r, Snap());
        return;
      }
      if k.code == MINUS {
        var v := r.value.value;
        r := Ok(Some(CT.Tree(CT.Neg, k, v.valType, [v])));
        assert P.Signed(sc, k, st) == P.Parsed(r, Snap());
      } else {
        assert P.Signed(sc, k, st) == sub;
      }
    }

    // -------------------------------------------------------------------
    // Fixed tokens

    /** `consumeTrailingSemicolon`. */
    method Semicolon() returns (e: Option<Exception>)
      requires Valid()
      modifies this
      ensures Valid() && P.Done(e, Snap()) == P.Semicolon(sc, old(Snap())) && log == old(log)
    {
      var t := Read();
      if t.None? {
        return Some(if sc.edition == P.Live then P.Error(P.Live, None, COMP_U, P.NO_TERMINATOR) else ParseException("EOS"));
      }
      if t.value.code != SEMICOLON {
        return Some(if sc.edition == P.Live then P.Complaint(P.Live, t, ILLEGAL_EXPR, UNEXPECTED_KEYWORD)
                    else ParseException("Unexpected symbol/keyword"));
      }
      return None;
    }

    /** `consumeLParen` and `consumeRParen`. */
    method Paren(code: TSCode, errType: ErrType) returns (e: Option<Exception>)
      requires Valid()
      modifies this
      ensures Valid() && P.Done(e, Snap()) == P.Paren(sc, old(Snap()), code, errType) && log == old(log)
    {
      var t := Read();
      if t.None? {
        return Some(NullPointer);
      }
      if t.value.code != code {
        var m := if code == LPAREN then (if errType == ARITHMETIC then UNMATCHED_LPAREN else MISSING_LPAREN)
                 else (if errType == ARITHMETIC then UNMATCHED_RPAREN else MISSING_RPAREN);
        return Some(P.Complaint(sc.edition, t, errType, m));
      }
      return None;
    }

    /** `consumeListSeparator`. */
    method Separator() returns (c: Try<bool>)
      requires Valid()
      modifies this
      ensures Valid() && (c, Snap()) == P.Separator(sc, old(Snap())) && log == old(log)
    {
      var t := Read();
      if t.None? {
        return Thrown(NullPointer);
      }
      if t.value.code != COMMA {
        Unread();
        return Ok(false);
      }
      return Ok(sc.edition == P.Live);
    }

    /** `discardStatement`. */
    method Discard() returns (e: Option<Exception>)
      requires Valid()
      modifies this
      ensures Valid() && P.Done(e, Snap()) == P.Discard(sc, old(Snap())) && log == old(log)
    {
      ghost var st := Snap();
      ghost var s := Snap();
      var t := Read();
      while t.Some? && t.value.code != SEMICOLON
        invariant Valid() && log == old(log) && s.pos <= |sc.toks|
        invariant (t, Snap()) == P.Read(sc, s) && P.Skip(sc, s) == P.Skip(sc, st)
        decreases P.Left(sc, Snap())
      {
        s := Snap();
        t := Read();
      }
      if eos {
        return Some(P.EosError(sc.edition));
      }
      return None;
    }

    // -------------------------------------------------------------------
    // Statements

    /** `stringLiteralRef`. */
    method StringLiteral() returns (r: Try<Option<P.Tree>>)
      requires Valid()
      modifies this
      ensures Valid() && P.Parsed(r, Snap()) == P.StringLiteral(sc, old(Snap())) && log == old(log)
    {
      var t := Read();
      if t.None? {
        return Thrown(NullPointer);
      }
      if t.value.code != STRING {
        Unread();
        return Ok(None);
      }
      return Ok(Some(CT.Tree(CT.StringLit(P.Text(t.value)), t.value, Imm_Str, [])));
    }

    /** `rvalue`. */
    method Rvalue() returns (r: Try<Option<P.Tree>>)
      requires Valid()
      modifies this
      ensures Valid() && P.Parsed(r, Snap()) == P.Rvalue(sc, old(Snap())) && log == old(log)
    {
      r := StringLiteral();
      if !r.Ok? || r.value.Some? {
        return;
      }
      r := AddSub();
    }

    /** `lvalue`: a new name is registered in the table as an Int4 variable. */
    method Lvalue() returns (r: Try<Option<P.Tree>>)
      requires Valid() && P.Pending(sc, Snap())
      modifies this, table, table.memory
      ensures Valid() && P.Parsed(r, Snap()) == P.Lvalue(sc, old(Snap())) && log == old(log)
    {
      var t := Read();
      var k := t.value;
      if k.code != IDENT || P.IsReserved(P.Text(k)) {
        return Ok(None);
      }
      var name := P.Text(k);
      if !table.IsRegistered(name) {
        table.RegisterVariable(name, Int4);
      }
      return Ok(Some(CT.Tree(CT.Lvalue(name), k, Int4, [])));
    }

    /** `assignment`: rewinds to its first token when the lvalue, `<-` or the
        rvalue is missing. */
    method Assignment() returns (r: Try<Option<P.Tree>>)
      requires Valid() && P.Pending(sc, Snap())
      modifies this, table, table.memory
      ensures Valid() && P.Parsed(r, Snap()) == P.Assignment(sc, old(Snap())) && log == old(log)
    {
      ghost var st := Snap();
      var begin := pos;
      var l := Lvalue();
      if l.value.None? {
        Rewind(begin);
        return Ok(None);
      }
      var lv := l.value.value;
      ghost var s1 := Snap();
      assert P.Assignment(sc, st) == P.AssignFrom(sc, st, lv, s1);
      var a := Read();
      if a.None? {
        return Thrown(NullPointer);
      }
      if a.value.code != ASSIGN {
        Rewind(begin);
        return Ok(None);
      }
      var v := Rvalue();
      if v.Thrown? {
        return v;
      }
      if v.value.None? {
        Rewind(begin);
        return Ok(None);
      }
      var rv := v.value.value;
      assert P.AssignFrom(sc, st, lv, s1) == P.AssignEnd(sc, a.value, lv, rv, Snap());
      var e := Semicolon();
      if e.Some? {
        return Thrown(e.value);
      }
      if !Equals(lv.valType, rv.valType) {
        return Thrown(ParseException(P.ASSIGN_MISMATCH));
      }
      return Ok(Some(CT.Tree(CT.Assign, a.value, Empty, [lv, rv])));
    }

    /** `clear`. */
    method ClearStatement() returns (r: Try<Option<P.Tree>>)
      requires Valid() && P.Pending(sc, Snap())
      modifies this
      ensures Valid() && P.Parsed(r, Snap()) == P.ClearStatement(sc, old(Snap())) && log == old(log)
    {
      ghost var st := old(Snap());
      var ct := Read();
      assert P.ClearStatement(sc, st) == P.ClearCall(sc, ct.value, Snap());
      var e := Paren(LPAREN, FUNCTION_CALL);
      if e.Some? {
        return Thrown(e.value);
      }
      e := Paren(RPAREN, FUNCTION_CALL);
      if e.Some? {
        return Thrown(e.value);
      }
      e := Semicolon();
      if e.Some? {
        return Thrown(e.value);
      }
      return Ok(Some(CT.Tree(CT.Clear, ct.value, Empty, [])));
    }

    /** `print`: the keyword, `(`, and the argument loop. */
    method PrintStatement() returns (r: Try<Option<P.Tree>>)
      requires Valid() && P.Pending(sc, Snap())
      modifies this
      ensures Valid() && P.Parsed(r, Snap()) == P.PrintStatement(sc, old(Snap())) && log == old(log)
    {
      var pt := Read();
      var e := Paren(LPAREN, FUNCTION_CALL);
      if e.Some? {
        return Thrown(e.value);
      }
      r := PrintArguments(pt.value);
    }

    /** The argument loop of `print`, which collects the arguments and the two
        flags, and the ';' after it. */
    method PrintArguments(pt: TokenView) returns (r: Try<Option<P.Tree>>)
      requires Valid()
      modifies this
      ensures Valid() && P.Parsed(r, Snap()) == P.PrintArgs(sc, pt, [], false, false, old(Snap())) && log == old(log)
    {
      ghost var st := Snap();
      var args: seq<P.Tree> := [];
      var inList, separated := false, false;
      while true
        invariant Valid() && log == old(log)
        invariant forall i :: 0 <= i < |args| ==> P.WellFormed(args[i])
        invariant P.PrintArgs(sc, pt, args, inList, separated, Snap()) == P.PrintArgs(sc, pt, [], false, false, st)
        decreases P.Left(sc, Snap())
      {
        var step := PrintStep(pt, args, inList, separated);
        if step.Stop? {
          return step.r;
        }
        args := args + [step.arg];
        inList := if sc.edition == P.Live then inList || step.comma else step.comma;
        separated := step.comma;
      }
    }

    /** One pass of `print`'s loop: the next token either ends the loop,
        or begins an argument. */
    method PrintStep(pt: TokenView, args: seq<P.Tree>, inList: bool, separated: bool) returns (step: PrintPass)
      requires Valid() && forall i :: 0 <= i < |args| ==> P.WellFormed(args[i])
      modifies this
      ensures Valid() && log == old(log)
      ensures step.Stop? ==> P.Parsed(step.r, Snap()) == P.PrintArgs(sc, pt, args, inList, separated, old(Snap()))
      ensures step.Next? ==> && P.WellFormed(step.arg) && P.Left(sc, Snap()) < P.Left(sc, old(Snap()))
                             && P.PrintArgs(sc, pt, args, inList, separated, old(Snap()))
                                == P.PrintArgs(sc, pt, args + [step.arg], if sc.edition == P.Live then inList || step.comma else step.comma, step.comma, Snap())
    {
      ghost var s := Snap();
      var a := Read();
      if a.None? {
        return Stop(Thrown(NullPointer));
      }
      if a.value.code == RPAREN || a.value.code == SEMICOLON {
        var r := PrintClose(pt, args);
        return Stop(r);
      }
      assert P.PrintArgs(sc, pt, args, inList, separated, s) == P.PrintNext(sc, pt, args, inList, separated, s);
      var n := PrintTurn(s, pt, a.value, args, inList, separated);
      if n.Thrown? {
        return Stop(Thrown(n.e));
      }
      return Next(n.value.0, n.value.1);
    }

    /** The ';' after `print`'s closing token, and the tree. */
    method PrintClose(pt: TokenView, args: seq<P.Tree>) returns (r: Try<Option<P.Tree>>)
      requires Valid() && P.Good(sc, Snap()) && forall i :: 0 <= i < |args| ==> P.WellFormed(args[i])
      modifies this
      ensures Valid() && P.Parsed(r, Snap()) == P.PrintEnd(sc, pt, args, old(Snap())) && log == old(log)
    {
      var e := Semicolon();
      if e.Some? {
        return Thrown(e.value);
      }
      return Ok(Some(CT.Tree(CT.Print, pt, Empty, args)));
    }

    /** One turn of the loop, after its first token `a` has been read from
        `s`: the separator check and the argument. */
    method PrintTurn(ghost s: P.PState, pt: TokenView, a: TokenView, args: seq<P.Tree>, inList: bool, separated: bool)
      returns (n: Try<(P.Tree, bool)>)
      requires Valid() && P.Good(sc, s) && P.Pending(sc, s) && a == sc.toks[s.pos] && Snap() == s.(pos := s.pos + 1)
      requires forall i :: 0 <= i < |args| ==> P.WellFormed(args[i])
      modifies this
      ensures Valid() && log == old(log)
      ensures n.Thrown? ==> P.PrintNext(sc, pt, args, inList, separated, s) == P.Parsed(Thrown(n.e), Snap())
      ensures n.Ok? ==> && P.WellFormed(n.value.0) && P.Left(sc, Snap()) < P.Left(sc, s)
                        && P.PrintNext(sc, pt, args, inList, separated, s)
                           == P.PrintArgs(sc, pt, args + [n.value.0], if sc.edition == P.Live then inList || n.value.1 else n.value.1, n.value.1, Snap())
    {
      if P.MissingSeparator(sc.edition, |args|, inList, separated) {
        return Thrown(P.Error(sc.edition, Some(a), FUNCTION_CALL, P.SeparatorMessage(sc.edition)));
      }
      n := NextArgument(s, a);
    }

    /** The argument that begins at `a`, read from `s`: a comma stays
        consumed, anything else is put back. */
    method NextArgument(ghost s: P.PState, a: TokenView) returns (n: Try<(P.Tree, bool)>)
      requires Valid() && P.Good(sc, s) && P.Pending(sc, s) && a == sc.toks[s.pos] && Snap() == s.(pos := s.pos + 1)
      modifies this
      ensures Valid() && log == old(log) && P.Arg(n, Snap()) == P.NextArgument(sc, s)
    {
      ghost var from := P.ArgumentStart(sc, s);
      if a.code != COMMA {
        Unread();
      }
      assert Snap() == from;
      n := Argument();
    }

    /** One argument of `print` and the separator check after it. */
    method Argument() returns (n: Try<(P.Tree, bool)>)
      requires Valid()
      modifies this
      ensures Valid() && log == old(log)
      ensures P.Arg(n, Snap()) == P.Argument(sc, P.Rvalue(sc, old(Snap())))
    {
      var v := Rvalue();
      if v.Thrown? {
        return Thrown(v.e);
      }
      if v.value.None? {
        return Thrown(P.Complaint(sc.edition, Some(NONE_TOKEN), ILLEGAL_EXPR, METHOD_ARGUMENT));
      }
      if eos {
        return Thrown(P.EosError(sc.edition));
      }
      var c := Separator();
      if c.Thrown? {
        return Thrown(c.e);
      }
      return Ok((v.value.value, c.value));
    }

    // -------------------------------------------------------------------
    // Statements and entry points

    /** `statement`. */
    method Statement() returns (r: Try<Option<P.Tree>>)
      requires Valid()
      modifies this, table, table.memory
      ensures Valid() && P.Parsed(r, Snap()) == P.Statement(sc, old(Snap())) && log == old(log)
    {
      ghost var st := Snap();
      var t := Read();
      if t.None? || t.value.code == COMMENT || t.value.code == SEMICOLON {
        return Ok(None);
      }
      Unread();
      var k := t.value;
      assert Snap() == st && P.Pending(sc, st) && k == sc.toks[st.pos];
      assert P.Statement(sc, st) == if k.code == IDENT && P.Text(k) == "print" then P.PrintStatement(sc, st)
        else if k.code == IDENT && P.Text(k) == "clear" then P.ClearStatement(sc, st)
        else P.Attempts(sc, k, st);
      if k.code == IDENT && P.Text(k) == "print" {
        r := PrintStatement();
        return;
      }
      if k.code == IDENT && P.Text(k) == "clear" {
        r := ClearStatement();
        return;
      }
      r := Attempts(k);
    }

    /** The rest of `statement`: an assignment, an rvalue, or the fallback. */
    method Attempts(k: TokenView) returns (r: Try<Option<P.Tree>>)
      requires Valid() && P.Pending(sc, Snap()) && k == sc.toks[Snap().pos]
      modifies this, table, table.memory
      ensures Valid() && P.Parsed(r, Snap()) == P.Attempts(sc, k, old(Snap())) && log == old(log)
    {
      r := Assignment();
      if !(r.Ok? && r.value.None?) {
        return;
      }
      r := Rvalue();
      if !(r.Ok? && r.value.None?) {
        return;
      }
      r := Unparsed(k);
    }

    /** The end of `statement` when nothing parsed. */
    method Unparsed(k: TokenView) returns (r: Try<Option<P.Tree>>)
      requires Valid() && k.value.Some?
      modifies this
      ensures Valid() && P.Parsed(r, Snap()) == P.Unparsed(sc, k, old(Snap())) && log == old(log)
    {
      match sc.edition
      case Live =>
        var e := Discard();
        if e.Some? {
          return Thrown(e.value);
        }
        return Thrown(P.Complaint(P.Live, Some(k), ILLEGAL_EXPR, UNEXPECTED_KEYWORD));
      case Legacy =>
        if failed {
          return Ok(None);
        }
        var e := Discard();
        if e.Some? && !e.value.ParseException? {
          return Thrown(e.value);
        }
        failed := true;
        return Ok(None);
    }

    /** `statementBlock`: statements up to the end of input or a `]`. */
    method StatementBlock() returns (r: Try<Option<P.Tree>>)
      requires Valid()
      modifies this, table, table.memory
      ensures Valid() && P.Outcome(r, Snap(), log) == P.Block(sc, [], old(Snap()), old(log))
    {
      ghost var st := Snap();
      ghost var lg := log;
      var stmts: seq<P.Tree> := [];
      while true
        invariant Valid() && forall i :: 0 <= i < |stmts| ==> P.WellFormed(stmts[i])
        invariant P.Block(sc, stmts, Snap(), log) == P.Block(sc, [], st, lg)
        decreases P.Left(sc, Snap())
      {
        var pass := BlockStep(stmts);
        if pass.Ended? {
          return pass.r;
        }
        stmts := stmts + [pass.stmt];
      }
    }

    /** One pass of `statementBlock`'s loop: the end of the block, or the next
        statement. */
    method BlockStep(stmts: seq<P.Tree>) returns (pass: BlockPass)
      requires Valid() && forall i :: 0 <= i < |stmts| ==> P.WellFormed(stmts[i])
      modifies this, table, table.memory
      ensures Valid()
      ensures pass.Ended? ==> P.Outcome(pass.r, Snap(), log) == P.Block(sc, stmts, old(Snap()), old(log))
      ensures pass.Added? ==> && P.WellFormed(pass.stmt) && P.Left(sc, Snap()) < P.Left(sc, old(Snap())) && log == old(log)
                              && P.Block(sc, stmts, old(Snap()), log) == P.Block(sc, stmts + [pass.stmt], Snap(), log)
    {
      ghost var st := Snap();
      var t := Read();
      if t.None? || t.value.code == RBRACKET {
        return Ended(Ok(Some(P.BlockOf(stmts))));
      }
      Unread();
      assert Snap() == st && P.Pending(sc, st);
      pass := StatementPass(stmts);
    }

    /** A statement of the block, with the loop's handling of its outcome: one
        more statement, the end of the block, or the catch. */
    method StatementPass(stmts: seq<P.Tree>) returns (pass: BlockPass)
      requires Valid() && forall i :: 0 <= i < |stmts| ==> P.WellFormed(stmts[i])
      requires P.Pending(sc, Snap()) && sc.toks[pos].code != RBRACKET
      modifies this, table, table.memory
      ensures Valid()
      ensures pass.Ended? ==> P.Outcome(pass.r, Snap(), log) == P.Block(sc, stmts, old(Snap()), old(log))
      ensures pass.Added? ==> && P.WellFormed(pass.stmt) && P.Left(sc, Snap()) < P.Left(sc, old(Snap())) && log == old(log)
                              && P.Block(sc, stmts, old(Snap()), log) == P.Block(sc, stmts + [pass.stmt], Snap(), log)
    {
      var n := Statement();
      if n.Ok? && n.value.Some? {
        return Added(n.value.value);
      } else if n.Ok? {
        return Ended(Ok(Some(P.BlockOf(stmts))));
      } else if !n.e.ParseException? {
        return Ended(n);
      }
      var r := Recover(stmts, n.e.message);
      return Ended(r);
    }

    /** The catch in `statementBlock`. */
    method Recover(stmts: seq<P.Tree>, message: string) returns (r: Try<Option<P.Tree>>)
      requires Valid() && forall i :: 0 <= i < |stmts| ==> P.WellFormed(stmts[i])
      modifies this
      ensures Valid() && P.Outcome(r, Snap(), log) == P.Recover(sc, stmts, message, old(Snap()), old(log))
    {
      match sc.edition
      case Live => r := LiveRecover(stmts, message);
      case Legacy => r := LegacyRecover(stmts, message);
    }

    /** The live catch: report, flag, and discard the rest of the statement. */
    method LiveRecover(stmts: seq<P.Tree>, message: string) returns (r: Try<Option<P.Tree>>)
      requires Valid() && sc.edition == P.Live && forall i :: 0 <= i < |stmts| ==> P.WellFormed(stmts[i])
      modifies this
      ensures Valid() && P.Outcome(r, Snap(), log) == P.Recover(sc, stmts, message, old(Snap()), old(log))
    {
      log := log + [message];
      failed := true;
      if !eos {
        var e := Discard();
        if e.Some? {
          log := log + [e.value.message];
          return Ok(None);
        }
      }
      return Ok(Some(P.BlockOf(stmts)));
    }

    /** The legacy catch: discard the rest of the statement, then flag; the
        exception's message is not reported. */
    method LegacyRecover(stmts: seq<P.Tree>, ghost message: string) returns (r: Try<Option<P.Tree>>)
      requires Valid() && sc.edition == P.Legacy && forall i :: 0 <= i < |stmts| ==> P.WellFormed(stmts[i])
      modifies this
      ensures Valid() && P.Outcome(r, Snap(), log) == P.Recover(sc, stmts, message, old(Snap()), old(log))
    {
      var e := Discard();
      if e.Some? && !e.value.ParseException? {
        return Thrown(e.value);
      }
      failed := true;
      return Ok(Some(P.BlockOf(stmts)));
    }

    /** `commandLine`. */
    method CommandLine() returns (r: Try<Option<P.Tree>>)
      requires Valid()
      modifies this, table, table.memory
      ensures Valid() && P.Outcome(r, Snap(), log) == P.CommandLine(sc, old(Snap()), old(log))
    {
      if eos {
        return Ok(None);
      }
      if sc.edition == P.Legacy {
        r := Statement();
        return;
      }
      ghost var st := Snap();
      var begin := pos;
      var token := Read();
      if token.None? {
        return Thrown(NullPointer);
      }
      var illegal := ScanReserved(begin, token.value);
      if illegal {
        return Ok(None);
      }
      if |sc.toks| - begin >= TokenStreams.BUFFER_SIZE {
        return Thrown(IndexOutOfBounds(|sc.toks| - begin));
      }
      Rewind(begin);
      r := Statement();
      if r.Thrown? && r.e.ParseException? {
        log := log + [r.e.message];
        r := Ok(None);
      }
    }

    /** The scan of `commandLine`'s do-while loop, from the first token `first`
        (just read, at `begin`) to the end of the input: each reserved
        identifier is reported and sets the flag. */
    method ScanReserved(begin: nat, first: TokenView) returns (illegal: bool)
      requires Valid() && !eos && begin + 1 == pos && first == sc.toks[begin]
      modifies this
      ensures Valid() && pos == |sc.toks| && eos
      ensures log == P.Scanned(sc.toks, begin, old(log))
      ensures illegal == (|log| > |old(log)|) && failed == (old(failed) || illegal)
    {
      var token := Some(first);
      illegal := false;
      ghost var log0, failed0 := log, failed;
      while true
        invariant Scanning(begin, log0, failed0, token, illegal)
        decreases |sc.toks| - pos
      {
        var done;
        token, illegal, done := ScanOne(begin, log0, failed0, token, illegal);
        if done {
          return;
        }
      }
    }

    /** What the scan keeps between two tokens: `token` was the last one read,
        and what is still to be reported from it on completes the reports of
        the whole scan from `begin`. */
    ghost predicate Scanning(begin: nat, log0: seq<string>, failed0: bool, token: Option<TokenView>, illegal: bool)
      reads this
    {
      && Valid() && begin < pos <= |sc.toks| && !eos
      && token == Some(sc.toks[pos - 1])
      && P.Scanned(sc.toks, pos - 1, log) == P.Scanned(sc.toks, begin, log0)
      && |log0| <= |log| && illegal == (|log| > |log0|)
      && failed == (failed0 || illegal)
    }

    /** One pass of the do-while loop: report `token`, then read the next one;
        `done` when the input is exhausted. */
    method ScanOne(ghost begin: nat, ghost log0: seq<string>, ghost failed0: bool, token: Option<TokenView>, illegal: bool)
      returns (next: Option<TokenView>, flagged: bool, done: bool)
      requires Scanning(begin, log0, failed0, token, illegal)
      modifies this
      ensures done ==> Valid() && pos == |sc.toks| && eos && log == P.Scanned(sc.toks, begin, log0)
      ensures done ==> flagged == (|log| > |log0|) && failed == (failed0 || flagged)
      ensures !done ==> Scanning(begin, log0, failed0, next, flagged) && pos > old(pos)
    {
      ghost var at := pos;
      var reserved := Report(begin, log0, token.value);
      flagged := illegal || reserved;
      next := Advance();
      done := eos;
      if done {
        assert P.Scanned(sc.toks, at, log) == log;
      } else {
        assert pos - 1 == at;
      }
    }

    /** The body of the scan for one token, the one just read: a reserved
        identifier is reported to the observer and sets the flag, which
        carries the scan's reports from `begin` past the token. */
    method Report(ghost begin: nat, ghost log0: seq<string>, t: TokenView) returns (reserved: bool)
      requires Valid() && begin < pos && t == sc.toks[pos - 1]
      requires P.Scanned(sc.toks, pos - 1, log) == P.Scanned(sc.toks, begin, log0)
      modifies this
      ensures Valid() && P.Scanned(sc.toks, pos, log) == P.Scanned(sc.toks, begin, log0)
      ensures reserved == (|log| > |old(log)|) && |old(log)| <= |log|
      ensures failed == (old(failed) || reserved)
      ensures pos == old(pos) && eos == old(eos)
    {
      P.ScannedStep(sc.toks, pos - 1, log);
      reserved := t.code == IDENT && P.IsReserved(P.Text(t));
      if reserved {
        log := log + [Format(Some(t), ERROR, ILLEGAL_EXPR, P.COMMAND_LINE_MESSAGE).value];
        failed := true;
      } else {
        assert log + [] == log;
      }
    }
  }
}
