/**
 * What the parser's productions promise beyond one call: how operators
 * group, what a rewound assignment leaves behind, which words never make a
 * statement, and how each edition reports and recovers from errors.
 */
module ParserProperties {
  import opened TokenCodes
  import opened Tokens
  import opened Exceptions
  import opened DataTypes
  import opened CompilerErrors
  import opened Parsers
  import JavaInt
  import TokenStreams
  import CT = CodeTrees

  const ADD_OPS: set<CT.Op> := {CT.PLUS_OP, CT.MINUS_OP}
  const MUL_OPS: set<CT.Op> := {CT.MULT_OP, CT.DIV_OP, CT.MOD_OP}

  // ---------------------------------------------------------------------
  // Grouping of operators

  lemma {:induction false} LeftChainTransitive(t: Tree, m: Tree, b: Tree, ops: set<CT.Op>)
    requires LeftChain(t, m, ops) && LeftChain(m, b, ops)
    ensures LeftChain(t, b, ops)
    decreases t
  {
    if t != m {
      LeftChainTransitive(t.children[0], m, b, ops);
    }
  }

  lemma {:induction false} AddSubLoopChains(sc: Script, root: Tree, st: PState)
    requires Good(sc, st) && WellFormed(root)
    ensures var p := AddSubLoop(sc, root, st);
      Yields(p) ==> LeftChain(Yield(p), root, ADD_OPS)
    decreases Left(sc, st)
  {
    if !st.eos {
      var (t, s1) := Read(sc, st);
      if t.Some? && (t.value.code == PLUS || t.value.code == MINUS) {
        var k := t.value;
        var r := MultDivMod(sc, s1);
        var j := Join(sc.edition, root, k, CT.Binary(if k.code == PLUS then CT.PLUS_OP else CT.MINUS_OP), r);
        if j.Ok? {
          AddSubLoopChains(sc, j.value, r.st);
          var p := AddSubLoop(sc, j.value, r.st);
          if Yields(p) {
            assert LeftChain(j.value, root, ADD_OPS);
            LeftChainTransitive(Yield(p), j.value, root, ADD_OPS);
          }
        }
      }
    }
  }

  /** `+` and `-` group to the left: the tree of `addSub` is its first
      `multDivMod` under a left spine of `+` and `-` nodes. */
  lemma AddSubLeftAssociative(sc: Script, st: PState)
    requires Good(sc, st)
    ensures var p := AddSub(sc, st);
      Yields(p) ==> var l := MultDivMod(sc, st);
        Yields(l) && LeftChain(Yield(p), Yield(l), ADD_OPS)
  {
    if !st.eos {
      var l := MultDivMod(sc, st);
      if Yields(l) {
        AddSubLoopChains(sc, Yield(l), l.st);
      }
    }
  }

  lemma {:induction false} MulLoopChains(sc: Script, root: Tree, st: PState)
    requires Good(sc, st) && WellFormed(root)
    ensures var p := MulLoop(sc, root, st);
      Yields(p) ==> LeftChain(Yield(p), root, MUL_OPS)
    decreases Left(sc, st)
  {
    if !st.eos {
      var (t, s1) := Read(sc, st);
      if t.Some? && MulOp(t.value).Some? {
        var k := t.value;
        var r := Power(sc, s1);
        var j := Join(sc.edition, root, k, CT.Binary(MulOp(k).value), r);
        if j.Ok? {
          MulLoopChains(sc, j.value, r.st);
          var p := MulLoop(sc, j.value, r.st);
          if Yields(p) {
            assert LeftChain(j.value, root, MUL_OPS);
            LeftChainTransitive(Yield(p), j.value, root, MUL_OPS);
          }
        }
      }
    }
  }

  /** `*`, `/` and `mod` group to the left over `power`. */
  lemma MultDivModLeftAssociative(sc: Script, st: PState)
    requires Good(sc, st)
    ensures var p := MultDivMod(sc, st);
      Yields(p) ==> var l := Power(sc, st);
        Yields(l) && LeftChain(Yield(p), Yield(l), MUL_OPS)
  {
    if !st.eos {
      var l := Power(sc, st);
      if Yields(l) {
        MulLoopChains(sc, Yield(l), l.st);
      }
    }
  }

  /** The loop of `power` hands back a tree only at the end of input or in
      front of a token other than `^`. */
  predicate AtPowerEnd(sc: Script, st: PState)
  {
    st.eos || (st.pos < |sc.toks| && sc.toks[st.pos].code != EXP)
  }

  lemma {:induction false} PowerLoopEnds(sc: Script, c: Tree, st: PState)
    requires Good(sc, st) && WellFormed(c)
    ensures var p := PowerLoop(sc, c, st); Yields(p) ==> AtPowerEnd(sc, p.st)
    decreases Left(sc, st)
  {
    if !st.eos {
      var (t, s1) := Read(sc, st);
      if t.Some? && t.value.code == EXP {
        var r := Power(sc, s1);
        var j := Join(sc.edition, c, t.value, CT.Power, r);
        if j.Ok? {
          PowerLoopEnds(sc, j.value, r.st);
        }
      }
    }
  }

  /** A whole `power` leaves no `^` behind it. */
  lemma PowerEnds(sc: Script, st: PState)
    requires Good(sc, st)
    ensures var p := Power(sc, st); Yields(p) ==> AtPowerEnd(sc, p.st)
  {
    if !st.eos {
      var l := Negatable(sc, st);
      if Yields(l) {
        PowerLoopEnds(sc, Yield(l), l.st);
      }
    }
  }

  /** `^` groups to the right: the tree of `power` is its first `negatable`,
      or a `^` node whose left operand is that `negatable` and whose right
      operand is a whole `power` parsed after the `^`. */
  lemma PowerRightAssociative(sc: Script, st: PState)
    requires Good(sc, st)
    ensures var p := Power(sc, st);
      Yields(p) ==> var n := Negatable(sc, st);
        && Yields(n)
        && (|| Yield(p) == Yield(n)
            || (&& Yield(p).kind == CT.Power
                && n.st.pos < |sc.toks|
                && Yield(p).children[0] == Yield(n)
                && var r := Power(sc, n.st.(pos := n.st.pos + 1));
                   Yields(r) && Yield(p).children[1] == Yield(r)))
  {
    if !st.eos {
      var n := Negatable(sc, st);
      if Yields(n) {
        PowerLoopShape(sc, Yield(n), n.st);
      }
    }
  }

  /** The loop of `power` from the tree `c`: it hands back `c`, or a `^` node
      over `c` and a whole `power` parsed after the `^`. */
  lemma PowerLoopShape(sc: Script, c: Tree, st: PState)
    requires Good(sc, st) && WellFormed(c)
    ensures var p := PowerLoop(sc, c, st);
      Yields(p) ==>
        || Yield(p) == c
        || (&& Yield(p).kind == CT.Power
            && st.pos < |sc.toks|
            && Yield(p).children[0] == c
            && var r := Power(sc, st.(pos := st.pos + 1));
               Yields(r) && Yield(p).children[1] == Yield(r))
  {
    if AtPowerEnd(sc, st) {
      PowerLoopAtEnd(sc, c, st);
    } else if st.pos < |sc.toks| {
      var k := sc.toks[st.pos];
      var s1 := st.(pos := st.pos + 1);
      var r := Power(sc, s1);
      var j := Join(sc.edition, c, k, CT.Power, r);
      PowerLoopStep(sc, c, st);
      if j.Ok? {
        PowerEnds(sc, s1);
        PowerLoopAtEnd(sc, j.value, r.st);
      }
    }
  }

  /** At a `^` the loop of `power` joins a whole `power` to the tree so far
      and goes on. */
  lemma PowerLoopStep(sc: Script, c: Tree, st: PState)
    requires Good(sc, st) && WellFormed(c) && Pending(sc, st) && sc.toks[st.pos].code == EXP
    ensures var k := sc.toks[st.pos]; var r := Power(sc, st.(pos := st.pos + 1));
      var j := Join(sc.edition, c, k, CT.Power, r);
      PowerLoop(sc, c, st) == if j.Thrown? then Parsed(Thrown(j.e), r.st) else PowerLoop(sc, j.value, r.st)
  {
  }

  /** Where no `^` follows, the loop of `power` hands back the tree so far,
      if anything. */
  lemma PowerLoopAtEnd(sc: Script, c: Tree, st: PState)
    requires Good(sc, st) && WellFormed(c) && AtPowerEnd(sc, st)
    ensures var p := PowerLoop(sc, c, st); Yields(p) ==> Yield(p) == c
  {
  }

  // ---------------------------------------------------------------------
  // Statements

  /** A name that `statement` would take for a keyword of its own. */
  predicate Keyword(s: string)
  {
    s == "print" || s == "clear"
  }

  /** A reserved word that is not the `print` keyword is no statement: the
      live edition throws a ParseException for it; the legacy one answers
      nothing and sets its flag, unless the input then ends without a ';'. */
  lemma ReservedWordRejected(sc: Script, st: PState)
    requires Good(sc, st) && Pending(sc, st)
    requires sc.toks[st.pos].code == IDENT && IsReserved(Text(sc.toks[st.pos])) && Text(sc.toks[st.pos]) != "print"
    ensures var p := Statement(sc, st);
      && !Yields(p)
      && (sc.edition == Live ==> p.r.Thrown? && p.r.e.ParseException?)
      && (sc.edition == Legacy && p.r.Ok? && !st.failed ==> p.st.failed)
  {
    var k := sc.toks[st.pos];
    var s1 := st.(pos := st.pos + 1);
    assert Lvalue(sc, st) == Parsed(Ok(None), s1);
    assert Assignment(sc, st) == Parsed(Ok(None), st);
    assert StringLiteral(sc, st) == Parsed(Ok(None), st);
    assert VariableDeref(sc, st) == Parsed(Ok(None), s1);
    assert Varnumeric(sc, st) == Parsed(Ok(None), s1);
    assert Negatable(sc, st) == Parsed(Ok(None), s1);
    assert Power(sc, st) == Parsed(Ok(None), s1);
    assert MultDivMod(sc, st) == Parsed(Ok(None), s1);
    assert Rvalue(sc, st) == Parsed(Ok(None), s1);
    assert Statement(sc, st) == Unparsed(sc, k, s1);
  }

  /** An assignment is speculative, but its lvalue is not: a new name followed
      by anything but `<-` is registered, and only the stream is rewound. */
  lemma RewoundAssignmentRegisters(sc: Script, st: PState)
    requires Good(sc, st) && st.pos + 1 < |sc.toks| && !st.eos
    requires sc.toks[st.pos].code == IDENT && !IsReserved(Text(sc.toks[st.pos]))
    requires Text(sc.toks[st.pos]) !in st.catalog
    requires sc.toks[st.pos + 1].code != ASSIGN
    ensures Assignment(sc, st) == Parsed(Ok(None), Parsers.Register(st, Text(sc.toks[st.pos])))
  {
    var name := Text(sc.toks[st.pos]);
    var s2 := Parsers.Register(st, name).(pos := st.pos + 1);
    assert Lvalue(sc, st).st == s2;
    assert AssignFrom(sc, st, Yield(Lvalue(sc, st)), s2) == Parsed(Ok(None), Rewind(s2.(pos := st.pos + 2), st.pos));
  }

  /** A registered name parses as an operand. */
  lemma NameOperand(sc: Script, st: PState)
    requires Good(sc, st) && Pending(sc, st)
    requires sc.toks[st.pos].code == IDENT
    requires var x := Text(sc.toks[st.pos]); !IsReserved(x) && x != "true" && x != "false" && x in st.catalog
    ensures var k := sc.toks[st.pos]; var x := Text(k);
      Negatable(sc, st) == Parsed(Ok(Some(CT.Tree(CT.Var(x), k, st.catalog[x].dtype, []))), st.(pos := st.pos + 1))
  {
    var k := sc.toks[st.pos];
    var x := Text(k);
    var v := CT.Tree(CT.Var(x), k, st.catalog[x].dtype, []);
    var s1 := st.(pos := st.pos + 1);
    assert VariableDeref(sc, st) == Parsed(Ok(Some(v)), s1);
    assert Varnumeric(sc, st) == Parsed(Ok(Some(v)), s1);
  }

  /** An operand that is an identifier never registered is an error at that
      identifier, unless it is `true`, `false` or a reserved word. */
  lemma UndefinedNameRejected(sc: Script, st: PState)
    requires Good(sc, st) && Pending(sc, st)
    requires sc.toks[st.pos].code == IDENT
    requires var x := Text(sc.toks[st.pos]); !IsReserved(x) && x != "true" && x != "false" && x !in st.catalog
    ensures var k := sc.toks[st.pos];
      Negatable(sc, st) == Parsed(Thrown(Complaint(sc.edition, Some(k), SYMBOL_REF, UNDEFINED_SYMBOL)), st.(pos := st.pos + 1))
  {
    var k := sc.toks[st.pos];
    var e := Parsed(Thrown(Complaint(sc.edition, Some(k), SYMBOL_REF, UNDEFINED_SYMBOL)), st.(pos := st.pos + 1));
    assert VariableDeref(sc, st) == e;
    assert Varnumeric(sc, st) == e;
  }

  /** `true` and `false` are read and give no operand. */
  lemma BooleanConstantsIgnored(sc: Script, st: PState)
    requires Good(sc, st) && Pending(sc, st)
    requires sc.toks[st.pos].code == IDENT && Text(sc.toks[st.pos]) in {"true", "false"}
    ensures Negatable(sc, st) == Parsed(Ok(None), st.(pos := st.pos + 1))
  {
    assert Varnumeric(sc, st) == Parsed(Ok(None), st.(pos := st.pos + 1));
  }

  /** An INTEGER token is an Int4 literal of the value `parseInt` reads from
      its text, or the NumberFormatException of that text. */
  lemma IntegerOperand(sc: Script, st: PState)
    requires Good(sc, st) && Pending(sc, st)
    requires sc.toks[st.pos].code == INTEGER
    ensures var k := sc.toks[st.pos]; var n := JavaInt.ParseInt(Text(k)); var p := Negatable(sc, st);
      && p.st == st.(pos := st.pos + 1)
      && (n.Some? ==> p.r == Ok(Some(CT.Tree(CT.IntLit(n.value), k, Int4, []))))
      && (n.None? ==> p.r == Thrown(NumberFormat(Text(k))))
  {
    assert Negatable(sc, st) == Varnumeric(sc, st);
  }

  /** Any other token that starts no operand is read and gives nothing. */
  lemma OtherTokenIgnored(sc: Script, st: PState)
    requires Good(sc, st) && Pending(sc, st)
    requires sc.toks[st.pos].code !in {INTEGER, IDENT}
    ensures Varnumeric(sc, st) == Parsed(Ok(None), st.(pos := st.pos + 1))
  {
  }

  /** An operand before a ';' is the whole expression. */
  lemma OperandBeforeSemicolon(sc: Script, st: PState)
    requires Good(sc, st) && Pending(sc, st) && st.pos + 1 < |sc.toks|
    requires sc.toks[st.pos].code != STRING && sc.toks[st.pos + 1].code == SEMICOLON
    requires Yields(Negatable(sc, st)) && Negatable(sc, st).st == st.(pos := st.pos + 1)
    ensures Rvalue(sc, st) == Negatable(sc, st)
  {
    var n := Negatable(sc, st);
    var v := Yield(n);
    var s1 := n.st;
    assert StringLiteral(sc, st) == Parsed(Ok(None), st);
    assert PowerLoop(sc, v, s1) == n;
    assert Power(sc, st) == n;
    assert MulLoop(sc, v, s1) == n;
    assert MultDivMod(sc, st) == n;
    assert AddSubLoop(sc, v, s1) == n;
  }

  /** So a statement made of a name never assigned and a ';' is accepted: it
      registers the name and reads it as a variable. */
  lemma UnassignedNameAccepted(sc: Script, st: PState)
    requires Good(sc, st) && st.pos + 1 < |sc.toks| && !st.eos
    requires sc.toks[st.pos].code == IDENT
    requires var x := Text(sc.toks[st.pos]);
      !IsReserved(x) && !Keyword(x) && x != "true" && x != "false" && x !in st.catalog
    requires sc.toks[st.pos + 1].code == SEMICOLON
    ensures var k := sc.toks[st.pos]; var x := Text(k);
      Statement(sc, st) == Parsed(Ok(Some(CT.Tree(CT.Var(x), k, Int4, []))), Parsers.Register(st, x).(pos := st.pos + 1))
  {
    var k := sc.toks[st.pos];
    var x := Text(k);
    var reg := Parsers.Register(st, x);
    RewoundAssignmentRegisters(sc, st);
    NameOperand(sc, reg);
    OperandBeforeSemicolon(sc, reg);
    var a := Assignment(sc, st);
    assert a.r == Ok(None) && a.st == reg;
  }

  /** The assignment's tail when its rvalue is a string literal. */
  lemma StringRvalue(sc: Script, begin: PState, lv: Tree, st: PState)
    requires Good(sc, st) && Pending(sc, begin) && Left(sc, st) < Left(sc, begin)
    requires WellFormed(lv) && lv.valType == Int4 && begin.failed == st.failed
    requires !st.eos && st.pos + 2 < |sc.toks|
    requires sc.toks[st.pos].code == ASSIGN && sc.toks[st.pos + 1].code == STRING
    requires sc.toks[st.pos + 2].code == SEMICOLON
    ensures AssignFrom(sc, begin, lv, st).r == Thrown(ParseException(ASSIGN_MISMATCH))
  {
    var s2 := st.(pos := st.pos + 1);
    var s3 := st.(pos := st.pos + 2);
    var s := sc.toks[st.pos + 1];
    var sv := CT.Tree(CT.StringLit(Text(s)), s, Imm_Str, []);
    assert Rvalue(sc, s2) == Parsed(Ok(Some(sv)), s3);
    assert AssignFrom(sc, begin, lv, st) == AssignEnd(sc, sc.toks[st.pos], lv, sv, s3);
  }

  /** A string is never stored: `x <- "s";` is a type mismatch in both
      editions. */
  lemma StringAssignmentRejected(sc: Script, st: PState)
    requires Good(sc, st) && st.pos + 3 < |sc.toks| && !st.eos
    requires sc.toks[st.pos].code == IDENT && !IsReserved(Text(sc.toks[st.pos])) && !Keyword(Text(sc.toks[st.pos]))
    requires sc.toks[st.pos + 1].code == ASSIGN && sc.toks[st.pos + 2].code == STRING
    requires sc.toks[st.pos + 3].code == SEMICOLON
    ensures Statement(sc, st).r == Thrown(ParseException(ASSIGN_MISMATCH))
  {
    var l := Lvalue(sc, st);
    StringRvalue(sc, st, Yield(l), l.st);
    assert Assignment(sc, st).r == Thrown(ParseException(ASSIGN_MISMATCH));
  }

  // ---------------------------------------------------------------------
  // Blocks and the command line

  /** A statement that parses to nothing ends the block: a lone ';' or a
      comment is read, and the block holds only the statements before it. */
  lemma EmptyStatementEndsBlock(sc: Script, stmts: seq<Tree>, st: PState, log: seq<string>)
    requires Good(sc, st) && Pending(sc, st) && sc.toks[st.pos].code in {SEMICOLON, COMMENT}
    requires forall i :: 0 <= i < |stmts| ==> WellFormed(stmts[i])
    ensures Block(sc, stmts, st, log) == Outcome(Ok(Some(BlockOf(stmts))), st.(pos := st.pos + 1), log)
  {
    assert Statement(sc, st) == Parsed(Ok(None), st.(pos := st.pos + 1));
  }

  /** An rvalue statement does not read its ';', so the next statement the
      block parses is that ';', which answers nothing: the block ends after
      the rvalue, whatever follows. */
  lemma RvalueStatementEndsBlock(sc: Script, stmts: seq<Tree>, st: PState, log: seq<string>)
    requires Good(sc, st) && !st.eos && st.pos + 1 < |sc.toks|
    requires forall i :: 0 <= i < |stmts| ==> WellFormed(stmts[i])
    requires sc.toks[st.pos].code == INTEGER && JavaInt.ParseInt(Text(sc.toks[st.pos])).Some?
    requires sc.toks[st.pos + 1].code == SEMICOLON
    ensures var k := sc.toks[st.pos]; var v := CT.Tree(CT.IntLit(JavaInt.ParseInt(Text(k)).value), k, Int4, []);
      Block(sc, stmts, st, log) == Outcome(Ok(Some(BlockOf(stmts + [v]))), st.(pos := st.pos + 2), log)
  {
    var k := sc.toks[st.pos];
    var v := CT.Tree(CT.IntLit(JavaInt.ParseInt(Text(k)).value), k, Int4, []);
    var s1 := st.(pos := st.pos + 1);
    IntegerOperand(sc, st);
    OperandBeforeSemicolon(sc, st);
    assert Lvalue(sc, st) == Parsed(Ok(None), s1);
    assert Assignment(sc, st) == Parsed(Ok(None), st);
    assert Statement(sc, st) == Parsed(Ok(Some(v)), s1);
    EmptyStatementEndsBlock(sc, stmts + [v], s1, log);
  }

  /** A statement block never lets a ParseException escape: both editions
      catch it, and only what their recovery throws can leave. */
  lemma {:induction false} BlockCatchesParseErrors(sc: Script, stmts: seq<Tree>, st: PState, log: seq<string>)
    requires Good(sc, st) && forall i :: 0 <= i < |stmts| ==> WellFormed(stmts[i])
    ensures var o := Block(sc, stmts, st, log); o.r.Thrown? ==> !o.r.e.ParseException?
    decreases Left(sc, st)
  {
    var (t, s1) := Read(sc, st);
    if t.Some? && t.value.code != RBRACKET {
      var n := Statement(sc, st);
      if Yields(n) {
        BlockCatchesParseErrors(sc, stmts + [Yield(n)], n.st, log);
      } else if n.r.Thrown? && n.r.e.ParseException? {
        var o := Recover(sc, stmts, n.r.e.message, n.st, log);
        if sc.edition == Legacy {
          var d := Discard(sc, n.st);
          assert o.r.Thrown? ==> d.e.Some? && !d.e.value.ParseException?;
        }
      }
    }
  }

  /** The live observer: a block sets the parse-failed flag exactly when it
      reports a message. */
  lemma {:induction false} LiveFailuresReported(sc: Script, stmts: seq<Tree>, st: PState, log: seq<string>)
    requires Good(sc, st) && sc.edition == Live && forall i :: 0 <= i < |stmts| ==> WellFormed(stmts[i])
    ensures var o := Block(sc, stmts, st, log); o.st.failed == (st.failed || |log| < |o.log|)
    decreases Left(sc, st)
  {
    var (t, s1) := Read(sc, st);
    if t.Some? && t.value.code != RBRACKET {
      var n := Statement(sc, st);
      if Yields(n) {
        LiveFailuresReported(sc, stmts + [Yield(n)], n.st, log);
      }
    }
  }

  /** The live command line refuses script logic: a reserved word anywhere in
      what is left gives nothing, sets the flag, reports, and consumes the
      input. */
  lemma CommandLineRejectsReserved(sc: Script, st: PState, log: seq<string>, i: int)
    requires Good(sc, st) && sc.edition == Live && !st.eos
    requires st.pos <= i < |sc.toks| && sc.toks[i].code == IDENT && IsReserved(Text(sc.toks[i]))
    ensures var o := CommandLine(sc, st, log);
      && o.r == Ok(None) && o.st.failed && o.st.eos && o.st.pos == |sc.toks|
      && log < o.log
  {
    ScannedReports(sc.toks, st.pos, log);
  }

  /** Without reserved words a live command line of fewer than `BUFFER_SIZE`
      tokens parses one statement, and turns its ParseException into a
      report. */
  lemma CommandLineParsesStatement(sc: Script, st: PState, log: seq<string>)
    requires Good(sc, st) && sc.edition == Live && !st.eos && st.pos < |sc.toks|
    requires |sc.toks| - st.pos < TokenStreams.BUFFER_SIZE
    requires forall i :: st.pos <= i < |sc.toks| ==> !(sc.toks[i].code == IDENT && IsReserved(Text(sc.toks[i])))
    ensures var o := CommandLine(sc, st, log); var n := Statement(sc, st);
      && o.st == n.st
      && (n.r.Thrown? && n.r.e.ParseException? ==> o.r == Ok(None) && o.log == log + [n.r.e.message])
      && (!(n.r.Thrown? && n.r.e.ParseException?) ==> o.r == n.r && o.log == log)
  {
    ScannedReports(sc.toks, st.pos, log);
  }

  /** Without reserved words a live command line of `BUFFER_SIZE` tokens or
      more never reaches its statement: the rewind after the scan reads one
      past the buffer, and the IndexOutOfBoundsException escapes, since only
      ParseExceptions are caught. Nothing is reported, the flag is left alone
      and the stream stays at its end. */
  lemma CommandLineOverruns(sc: Script, st: PState, log: seq<string>)
    requires Good(sc, st) && sc.edition == Live && !st.eos
    requires |sc.toks| - st.pos >= TokenStreams.BUFFER_SIZE
    requires forall i :: st.pos <= i < |sc.toks| ==> !(sc.toks[i].code == IDENT && IsReserved(Text(sc.toks[i])))
    ensures var o := CommandLine(sc, st, log);
      && o.r == Thrown(IndexOutOfBounds(|sc.toks| - st.pos)) && !o.r.e.ParseException?
      && o.log == log && o.st.failed == st.failed
      && o.st.eos && o.st.pos == |sc.toks|
  {
    ScannedReports(sc.toks, st.pos, log);
  }

  /** A statement cut short by the end of input: the live block reports it and
      keeps the statements before it; in the legacy edition the
      RuntimeException leaves the block. */
  lemma EndOfInputInStatement(sc: Script, stmts: seq<Tree>, st: PState, log: seq<string>)
    requires Good(sc, st) && Pending(sc, st) && sc.toks[st.pos].code != RBRACKET
    requires forall i :: 0 <= i < |stmts| ==> WellFormed(stmts[i])
    requires var n := Statement(sc, st); n.r == Thrown(EosError(sc.edition)) && n.st.eos
    ensures var o := Block(sc, stmts, st, log);
      && (sc.edition == Live ==> o.r == Ok(Some(BlockOf(stmts))) && o.st.failed && o.log == log + [EosError(Live).message])
      && (sc.edition == Legacy ==> o.r == Thrown(EosError(Legacy)))
  {
    if sc.edition == Legacy {
      assert !EosError(Legacy).ParseException?;
    }
  }
}
