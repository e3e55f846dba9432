/**
 * The lexer's automaton: the 47-state transition table built once at
 * construction, and the machine that walks it one character at a time,
 * recording every state it enters.
 */
module Automaton {
  import opened TokenCodes
  import opened Patterns
  import opened LexStates

  /** Number of states in the table. */
  const SIZE: nat := 47

  /** The code of state `id`. */
  function CodeOf(id: nat): TSCode
  {
    match id
    case 2 => LESS
    case 3 => LESS_EQ
    case 4 => ASSIGN
    case 5 => UNKNOWN
    case 6 => GREATER
    case 7 => GREATER_EQ
    case 8 => EQUAL
    case 9 => UNKNOWN
    case 10 => NOT_EQUAL
    case 11 => PLUS
    case 12 => MINUS
    case 13 => MULT
    case 14 => DIV
    case 15 => EXP
    case 16 => NOT
    case 17 => AND
    case 18 => OR
    case 19 => LPAREN
    case 20 => RPAREN
    case 21 => LBRACKET
    case 22 => RBRACKET
    case 23 => LBRACE
    case 24 => RBRACE
    case 25 => DOT
    case 26 => COMMA
    case 27 => SEMICOLON
    case 28 => COLON
    case 29 => AT
    case 30 => IDENT
    case 31 => INTEGER
    case 32 => REAL
    case 33 => REAL
    case 34 => UNKNOWN
    case 35 => UNKNOWN
    case 36 => REAL
    case 37 => STRING_PARTIAL
    case 38 => STRING_INVALID
    case 39 => STRING
    case 40 => STRING_PARTIAL
    case _ => if 41 <= id <= 46 then COMMENT else NONE   // 0 (start) and 1 (EMPTY) carry NONE
  }

  /** Whether state `id` was built with the force-stop flag: the completed
      two-character operators, every single-character operator and punctuation
      state but '.', and the closing states of strings and comments. */
  function HaltsAt(id: nat): bool
  {
    id == 3 || id == 4 || id == 7 || id == 8 || (10 <= id <= 24) || (26 <= id <= 29)
    || id == 38 || id == 39 || id == 42 || id == 46
  }

  /** The transitions of state `id`, in the order `init` adds them. */
  function TransitionsOf(id: nat): seq<Transition>
  {
    match id
    // start: whitespace loops, then one transition per token class
    case 0 => [
      Transition(WS, 0), Transition(Range('<', '<'), 2), Transition(Range('>', '>'), 6), Transition(Range('=', '='), 8), Transition(Range('~', '~'), 9),
      Transition(Range('+', '+'), 11), Transition(Range('-', '-'), 12), Transition(Range('*', '*'), 13), Transition(Range('/', '/'), 14), Transition(Range('^', '^'), 15),
      Transition(Range('!', '!'), 16), Transition(Range('&', '&'), 17), Transition(Range('|', '|'), 18),
      Transition(Range('(', '('), 19), Transition(Range(')', ')'), 20), Transition(Range('[', '['), 21), Transition(Range(']', ']'), 22), Transition(Range('{', '{'), 23), Transition(Range('}', '}'), 24),
      Transition(Range('.', '.'), 25), Transition(Range(',', ','), 26), Transition(Range(';', ';'), 27), Transition(Range(':', ':'), 28), Transition(Range('@', '@'), 29),
      Transition(ALPHA_US, 30), Transition(NUMERIC, 31), Transition(DOUBLE_QUOT, 37), Transition(Range('#', '#'), 41)]
    // <, <=, <-, <<-
    case 2 => [Transition(Range('=', '='), 3), Transition(Range('-', '-'), 4), Transition(Range('<', '<'), 5)]
    case 5 => [Transition(Range('-', '-'), 43)]
    // >, >= and ~=
    case 6 => [Transition(Range('=', '='), 7)]
    case 9 => [Transition(Range('=', '='), 10)]
    // a leading '.' starts a real
    case 25 => [Transition(NUMERIC, 33)]
    // identifiers
    case 30 => [Transition(ALPHA_NUM_US, 30)]
    // integers and reals
    case 31 => [Transition(NUMERIC, 31), Transition(CHAR_DOT, 32), Transition(SCI_EXP, 34)]
    case 32 => [Transition(NUMERIC, 33), Transition(SCI_EXP, 34)]
    case 33 => [Transition(SCI_EXP, 34), Transition(NUMERIC, 33)]
    case 34 => [Transition(NUMERIC, 36), Transition(SIGN, 35)]
    case 35 => [Transition(NUMERIC, 36)]
    case 36 => [Transition(NUMERIC, 36)]
    // strings
    case 37 => [Transition(STRING_CHAR, 37), Transition(Range('\\', '\\'), 40), Transition(NEWLINE, 38), Transition(DOUBLE_QUOT, 39)]
    case 40 => [Transition(DOT_ANY, 37), Transition(NEWLINE, 38)]
    // line comments
    case 41 => [Transition(DOT_ANY, 41), Transition(NEWLINE, 42)]
    // block comments, closed by ->>
    case 43 => [Transition(NOT_MINUS, 43), Transition(Range('-', '-'), 44)]
    case 44 => [Transition(NOT_RANGLE_BR, 43), Transition(Range('>', '>'), 45), Transition(Range('-', '-'), 44)]
    case 45 => [Transition(NOT_RANGLE_BR, 43), Transition(Range('>', '>'), 46), Transition(Range('-', '-'), 44)]
    case _ => []
  }

  /** State `id` of the table, exactly as `init` builds it; state 1 is the shared
      EMPTY state. */
  function StateAt(id: nat): (s: State)
    requires id < SIZE
    ensures id == 1 ==> s == EMPTY
  {
    State(CodeOf(id), HaltsAt(id), TransitionsOf(id))
  }

  /** Every transition of every state targets a state of the table, so neither
      STOPPED nor ERROR is ever a target. */
  lemma TableClosed(id: nat)
    requires id < SIZE
    ensures forall k :: 0 <= k < |TransitionsOf(id)| ==> TransitionsOf(id)[k].target < SIZE
  {
    if id == 0 {
      var ts := TransitionsOf(0);
      assert forall k :: 0 <= k < |ts| ==> ts[k].target <= 41;
    }
  }

  /** An index into the table. */
  type StateId = x: nat | x < SIZE

  /** The next state from `id` on `c`, or STOPPED. */
  function NextId(id: nat, c: char): (r: int)
    requires id < SIZE
    ensures r == STOPPED || 0 <= r < SIZE
  {
    TableClosed(id);
    FirstMatchTarget(TransitionsOf(id), c, SIZE);
    FirstMatch(TransitionsOf(id), c)
  }

  /** The machine's whole state, as a value. The history records the states
      entered, by their index in the table. */
  datatype Machine = Machine(history: seq<StateId>, valid: bool, rewind: bool, current: StateId)
  {
    /** The history ends with the current state. */
    ghost predicate Consistent()
    {
      |history| > 0 && history[|history| - 1] == current
    }

    /** `getCurrentTSCode`: the code of the last state entered. */
    function CurrentCode(): TSCode
      requires Consistent()
    {
      CodeOf(history[|history| - 1])
    }

    /** `getTSCodeChain`: the codes of the history, in order. */
    function CodeChain(): (chain: seq<TSCode>)
      requires Consistent()
      ensures |chain| == |history|
      ensures forall i :: 0 <= i < |history| ==> chain[i] == CodeOf(history[i])
    {
      seq(|history|, i requires 0 <= i < |history| => CodeOf(history[i]))
    }
  }

  /** The state after construction or `reset`. */
  function Start(): (m: Machine)
    ensures m.Consistent()
  {
    Machine([0], true, false, 0)
  }

  /** `advance(c)`: on no transition, stop and ask for a rewind; otherwise enter
      the target, record it, and stop if it is a force-stop state. */
  function Step(m: Machine, c: char): (r: Machine)
    requires m.Consistent()
    ensures r.Consistent()
  {
    var next := NextId(m.current, c);
    if next == STOPPED then m.(valid := false, rewind := true)
    else Machine(m.history + [next], if HaltsAt(next) then false else m.valid, m.rewind, next)
  }

  /** The machine after feeding every character of `s`, from `m`, ignoring
      halts (the lexer stops feeding at the first one). */
  function Run(m: Machine, s: string): (r: Machine)
    requires m.Consistent()
    ensures r.Consistent()
    decreases |s|
  {
    if s == [] then m else Run(Step(m, s[0]), s[1..])
  }

  /** `advance` on a character with no transition only halts: the state and the
      history are unchanged. With a transition it enters the target, appends it
      to the history, becomes invalid exactly when the target is force-stop (or was
      already invalid), and leaves the rewind flag alone. */
  lemma StepCases(m: Machine, c: char)
    requires m.Consistent()
    ensures NextId(m.current, c) == STOPPED ==>
      Step(m, c).current == m.current && Step(m, c).history == m.history
      && !Step(m, c).valid && Step(m, c).rewind
    ensures NextId(m.current, c) != STOPPED ==>
      Step(m, c).current == NextId(m.current, c)
      && Step(m, c).history == m.history + [Step(m, c).current]
      && Step(m, c).CurrentCode() == CodeOf(Step(m, c).current)
      && (Step(m, c).valid <==> m.valid && !HaltsAt(Step(m, c).current))
      && Step(m, c).rewind == m.rewind
  {
  }

  /** A machine that has not asked for a rewind asks for one only by stopping
      outright, which leaves its state and history alone. */
  lemma RewindOnlyByStopping(m: Machine, c: char)
    requires m.Consistent() && !m.rewind
    ensures Step(m, c).rewind ==> Step(m, c).current == m.current && Step(m, c).history == m.history
  {
  }

  /** The start state asks for a rewind only by stopping, which leaves it in the
      start state and its code NONE. */
  lemma StartRewindIsNone(c: char)
    ensures Step(Start(), c).rewind ==> Step(Start(), c).CurrentCode() == NONE
  {
    RewindOnlyByStopping(Start(), c);
  }

  /** Whitespace loops on the start state, whose code is NONE, and adds one more
      start entry to the history per character. */
  lemma WhitespaceLoops(m: Machine, c: char)
    requires m.Consistent() && m.current == 0 && Matches(WS, c)
    ensures Step(m, c) == m.(history := m.history + [0])
    ensures Step(m, c).CurrentCode() == NONE
  {
  }

  /** The transition taken from `id` on `c` when transition `k` is the first to
      accept `c`. */
  lemma Takes(id: nat, c: char, k: nat)
    requires id < SIZE && k < |TransitionsOf(id)|
    requires Matches(TransitionsOf(id)[k].pattern, c)
    requires forall j :: 0 <= j < k ==> !Matches(TransitionsOf(id)[j].pattern, c)
    ensures NextId(id, c) == TransitionsOf(id)[k].target
  {
    FirstMatchWins(TransitionsOf(id), c, k);
  }

  // Single transitions out of the start state, one per lemma.
  lemma StartOnLess() ensures NextId(0, '<') == 2 { Takes(0, '<', 1); }
  lemma StartOnGreater() ensures NextId(0, '>') == 6 { Takes(0, '>', 2); }
  lemma StartOnTilde() ensures NextId(0, '~') == 9 { Takes(0, '~', 4); }
  lemma StartOnDot() ensures NextId(0, '.') == 25 { Takes(0, '.', 19); }
  lemma StartOnQuote() ensures NextId(0, '"') == 37 { Takes(0, '"', 26); }
  lemma StartOnHash() ensures NextId(0, '#') == 41 { Takes(0, '#', 27); }
  lemma StartOnLetter(c: char)
    requires ('a' <= c <= 'z') || ('A' <= c <= 'Z') || c == '_'
    ensures NextId(0, c) == 30
  {
    AlphaUsMeaning(c);
    Takes(0, c, 24);
  }
  lemma StartOnDigit(d: char)
    requires '0' <= d <= '9'
    ensures NextId(0, d) == 31
  {
    AlphaUsMeaning(d);
    Takes(0, d, 25);
  }
  lemma StartOnEqual() ensures NextId(0, '=') == 8 { Takes(0, '=', 3); }
  lemma StartOnPlus() ensures NextId(0, '+') == 11 { Takes(0, '+', 5); }
  lemma StartOnMinus() ensures NextId(0, '-') == 12 { Takes(0, '-', 6); }
  lemma StartOnMult() ensures NextId(0, '*') == 13 { Takes(0, '*', 7); }
  lemma StartOnDiv() ensures NextId(0, '/') == 14 { Takes(0, '/', 8); }
  lemma StartOnCaret() ensures NextId(0, '^') == 15 { Takes(0, '^', 9); }
  lemma StartOnBang() ensures NextId(0, '!') == 16 { Takes(0, '!', 10); }
  lemma StartOnAmp() ensures NextId(0, '&') == 17 { Takes(0, '&', 11); }
  lemma StartOnBar() ensures NextId(0, '|') == 18 { Takes(0, '|', 12); }
  lemma StartOnLParen() ensures NextId(0, '(') == 19 { Takes(0, '(', 13); }
  lemma StartOnRParen() ensures NextId(0, ')') == 20 { Takes(0, ')', 14); }
  lemma StartOnLBracket() ensures NextId(0, '[') == 21 { Takes(0, '[', 15); }
  lemma StartOnRBracket() ensures NextId(0, ']') == 22 { Takes(0, ']', 16); }
  lemma StartOnLBrace() ensures NextId(0, '{') == 23 { Takes(0, '{', 17); }
  lemma StartOnRBrace() ensures NextId(0, '}') == 24 { Takes(0, '}', 18); }
  lemma StartOnComma() ensures NextId(0, ',') == 26 { Takes(0, ',', 20); }
  lemma StartOnSemicolon() ensures NextId(0, ';') == 27 { Takes(0, ';', 21); }
  lemma StartOnColon() ensures NextId(0, ':') == 28 { Takes(0, ':', 22); }
  lemma StartOnAt() ensures NextId(0, '@') == 29 { Takes(0, '@', 23); }

  /** Every single-character operator and punctuation character but '.', and `=`,
      enters at once a halting state carrying its own code. */
  lemma OperatorCodes()
    ensures CodeOf(8) == EQUAL && HaltsAt(8)
    ensures CodeOf(11) == PLUS && HaltsAt(11)
    ensures CodeOf(12) == MINUS && HaltsAt(12)
    ensures CodeOf(13) == MULT && HaltsAt(13)
    ensures CodeOf(14) == DIV && HaltsAt(14)
    ensures CodeOf(15) == EXP && HaltsAt(15)
    ensures CodeOf(16) == NOT && HaltsAt(16)
    ensures CodeOf(17) == AND && HaltsAt(17)
    ensures CodeOf(18) == OR && HaltsAt(18)
  {
  }

  lemma OperatorsHalt()
    ensures NextId(0, '=') == 8
    ensures NextId(0, '+') == 11
    ensures NextId(0, '-') == 12
    ensures NextId(0, '*') == 13
    ensures NextId(0, '/') == 14
    ensures NextId(0, '^') == 15
    ensures NextId(0, '!') == 16
    ensures NextId(0, '&') == 17
    ensures NextId(0, '|') == 18
    ensures CodeOf(8) == EQUAL && HaltsAt(8)
    ensures CodeOf(11) == PLUS && HaltsAt(11)
    ensures CodeOf(12) == MINUS && HaltsAt(12)
    ensures CodeOf(13) == MULT && HaltsAt(13)
    ensures CodeOf(14) == DIV && HaltsAt(14)
    ensures CodeOf(15) == EXP && HaltsAt(15)
    ensures CodeOf(16) == NOT && HaltsAt(16)
    ensures CodeOf(17) == AND && HaltsAt(17)
    ensures CodeOf(18) == OR && HaltsAt(18)
  {
    StartOnEqual();
    StartOnPlus();
    StartOnMinus();
    StartOnMult();
    StartOnDiv();
    StartOnCaret();
    StartOnBang();
    StartOnAmp();
    StartOnBar();
    OperatorCodes();
  }

  lemma PunctuationCodes()
    ensures CodeOf(19) == LPAREN && HaltsAt(19)
    ensures CodeOf(20) == RPAREN && HaltsAt(20)
    ensures CodeOf(21) == LBRACKET && HaltsAt(21)
    ensures CodeOf(22) == RBRACKET && HaltsAt(22)
    ensures CodeOf(23) == LBRACE && HaltsAt(23)
    ensures CodeOf(24) == RBRACE && HaltsAt(24)
    ensures CodeOf(26) == COMMA && HaltsAt(26)
    ensures CodeOf(27) == SEMICOLON && HaltsAt(27)
    ensures CodeOf(28) == COLON && HaltsAt(28)
    ensures CodeOf(29) == AT && HaltsAt(29)
  {
  }

  lemma PunctuationHalts()
    ensures NextId(0, '(') == 19
    ensures NextId(0, ')') == 20
    ensures NextId(0, '[') == 21
    ensures NextId(0, ']') == 22
    ensures NextId(0, '{') == 23
    ensures NextId(0, '}') == 24
    ensures NextId(0, ',') == 26
    ensures NextId(0, ';') == 27
    ensures NextId(0, ':') == 28
    ensures NextId(0, '@') == 29
    ensures CodeOf(19) == LPAREN && HaltsAt(19)
    ensures CodeOf(20) == RPAREN && HaltsAt(20)
    ensures CodeOf(21) == LBRACKET && HaltsAt(21)
    ensures CodeOf(22) == RBRACKET && HaltsAt(22)
    ensures CodeOf(23) == LBRACE && HaltsAt(23)
    ensures CodeOf(24) == RBRACE && HaltsAt(24)
    ensures CodeOf(26) == COMMA && HaltsAt(26)
    ensures CodeOf(27) == SEMICOLON && HaltsAt(27)
    ensures CodeOf(28) == COLON && HaltsAt(28)
    ensures CodeOf(29) == AT && HaltsAt(29)
  {
    StartOnLParen();
    StartOnRParen();
    StartOnLBracket();
    StartOnRBracket();
    StartOnLBrace();
    StartOnRBrace();
    StartOnComma();
    StartOnSemicolon();
    StartOnColon();
    StartOnAt();
    PunctuationCodes();
  }

  /** The `<` submachine: `<` is LESS, `<=` LESS_EQ and `<-` ASSIGN (both
      halting), `<<` the UNKNOWN state 5, and `<<-` enters the block comment. */
  lemma LessEdges()
    ensures NextId(2, '=') == 3 && NextId(2, '-') == 4 && NextId(2, '<') == 5 && NextId(5, '-') == 43
  {
    Takes(2, '=', 0);
    Takes(2, '-', 1);
    Takes(2, '<', 2);
    Takes(5, '-', 0);
  }

  lemma LessCodes()
    ensures CodeOf(2) == LESS && !HaltsAt(2) && CodeOf(3) == LESS_EQ && HaltsAt(3)
    ensures CodeOf(4) == ASSIGN && HaltsAt(4) && CodeOf(5) == UNKNOWN && !HaltsAt(5)
    ensures CodeOf(43) == COMMENT && !HaltsAt(43)
  {
  }

  lemma LessSubmachine()
    ensures NextId(0, '<') == 2 && CodeOf(2) == LESS && !HaltsAt(2)
    ensures NextId(2, '=') == 3 && CodeOf(3) == LESS_EQ && HaltsAt(3)
    ensures NextId(2, '-') == 4 && CodeOf(4) == ASSIGN && HaltsAt(4)
    ensures NextId(2, '<') == 5 && CodeOf(5) == UNKNOWN && !HaltsAt(5)
    ensures NextId(5, '-') == 43 && CodeOf(43) == COMMENT && !HaltsAt(43)
  {
    StartOnLess();
    LessEdges();
    LessCodes();
  }

  lemma BlockCommentStays(c: char)
    requires c != '-' && (c == '\n' || !IsLineTerminator(c))
    ensures NextId(43, c) == 43
    ensures c != '>' ==> NextId(44, c) == 43 && NextId(45, c) == 43
  {
    Takes(43, c, 0);
    if c != '>' {
      Takes(44, c, 0);
      Takes(45, c, 0);
    }
  }

  lemma BlockCommentCloseEdges()
    ensures NextId(43, '-') == 44 && NextId(44, '>') == 45 && NextId(45, '>') == 46
    ensures NextId(44, '-') == 44 && NextId(45, '-') == 44
  {
    Takes(43, '-', 1);
    Takes(44, '>', 1);
    Takes(45, '>', 1);
    Takes(44, '-', 2);
    Takes(45, '-', 2);
  }

  lemma BlockCommentCodes()
    ensures CodeOf(43) == COMMENT && CodeOf(44) == COMMENT && CodeOf(45) == COMMENT && CodeOf(46) == COMMENT
    ensures !HaltsAt(43) && !HaltsAt(44) && !HaltsAt(45) && HaltsAt(46)
  {
  }

  lemma CarriageReturnInBlockComment()
    ensures NextId(43, '\r') == STOPPED
  {
    NoMatchStops(TransitionsOf(43), '\r');
  }

  /** Inside a block comment every character but '-' and the line terminators
      other than '\n' stays in the comment; `->>` closes it with a halting COMMENT
      state, and a '-' or `->` followed by anything else falls back. A carriage
      return matches nothing and halts the machine. */
  lemma BlockComment(c: char)
    ensures c != '-' && (c == '\n' || !IsLineTerminator(c)) ==> NextId(43, c) == 43
    ensures c != '-' && c != '>' && (c == '\n' || !IsLineTerminator(c)) ==> NextId(44, c) == 43 && NextId(45, c) == 43
    ensures NextId(43, '\r') == STOPPED
    ensures NextId(43, '-') == 44 && NextId(44, '>') == 45 && NextId(45, '>') == 46
    ensures NextId(44, '-') == 44 && NextId(45, '-') == 44
    ensures CodeOf(43) == COMMENT && CodeOf(44) == COMMENT && CodeOf(45) == COMMENT && CodeOf(46) == COMMENT
    ensures !HaltsAt(43) && !HaltsAt(44) && !HaltsAt(45) && HaltsAt(46)
  {
    if c != '-' && (c == '\n' || !IsLineTerminator(c)) {
      BlockCommentStays(c);
    }
    CarriageReturnInBlockComment();
    BlockCommentCloseEdges();
    BlockCommentCodes();
  }

  /** `~` alone is the UNKNOWN state 9, and `~=` is NOT_EQUAL, which halts. */
  lemma TildeEquals()
    ensures NextId(9, '=') == 10
  {
    Takes(9, '=', 0);
  }

  lemma TildeCodes()
    ensures CodeOf(9) == UNKNOWN && !HaltsAt(9) && CodeOf(10) == NOT_EQUAL && HaltsAt(10)
  {
  }

  lemma TildeSubmachine()
    ensures NextId(0, '~') == 9 && CodeOf(9) == UNKNOWN && !HaltsAt(9)
    ensures NextId(9, '=') == 10 && CodeOf(10) == NOT_EQUAL && HaltsAt(10)
  {
    StartOnTilde();
    TildeEquals();
    TildeCodes();
  }

  lemma DigitEdges(d: char)
    requires '0' <= d <= '9'
    ensures NextId(31, d) == 31 && NextId(32, d) == 33 && NextId(33, d) == 33
    ensures NextId(34, d) == 36 && NextId(35, d) == 36 && NextId(36, d) == 36
  {
    Takes(31, d, 0);
    Takes(32, d, 0);
    Takes(33, d, 1);
    Takes(34, d, 0);
    Takes(35, d, 0);
    Takes(36, d, 0);
  }

  lemma ExponentEdges()
    ensures NextId(31, '.') == 32 && NextId(31, 'e') == 34 && NextId(31, 'E') == 34 && NextId(33, 'e') == 34
    ensures NextId(34, '-') == 35 && NextId(34, '+') == 35
  {
    Takes(31, '.', 1);
    Takes(31, 'e', 2);
    Takes(31, 'E', 2);
    Takes(33, 'e', 0);
    Takes(34, '-', 1);
    Takes(34, '+', 1);
  }

  lemma NumberCodes()
    ensures CodeOf(31) == INTEGER && CodeOf(32) == REAL && CodeOf(33) == REAL
    ensures CodeOf(34) == UNKNOWN && CodeOf(35) == UNKNOWN && CodeOf(36) == REAL
    ensures !HaltsAt(31) && !HaltsAt(32) && !HaltsAt(33) && !HaltsAt(34) && !HaltsAt(35) && !HaltsAt(36)
  {
  }

  /** Digits loop on INTEGER; a '.' makes the number REAL; after `e` or `E`, and
      after the exponent's sign, the code is UNKNOWN until an exponent digit
      makes it REAL again. */
  lemma NumberSubmachine(d: char)
    requires '0' <= d <= '9'
    ensures NextId(0, d) == 31 && NextId(31, d) == 31 && CodeOf(31) == INTEGER
    ensures NextId(31, '.') == 32 && NextId(32, d) == 33 && NextId(33, d) == 33
    ensures CodeOf(32) == REAL && CodeOf(33) == REAL
    ensures NextId(31, 'e') == 34 && NextId(31, 'E') == 34 && NextId(33, 'e') == 34 && CodeOf(34) == UNKNOWN
    ensures NextId(34, '-') == 35 && NextId(34, '+') == 35 && CodeOf(35) == UNKNOWN
    ensures NextId(34, d) == 36 && NextId(35, d) == 36 && NextId(36, d) == 36 && CodeOf(36) == REAL
    ensures !HaltsAt(31) && !HaltsAt(32) && !HaltsAt(33) && !HaltsAt(34) && !HaltsAt(35) && !HaltsAt(36)
  {
    StartOnDigit(d);
    DigitEdges(d);
    ExponentEdges();
    NumberCodes();
  }

  lemma StringEdges(c: char)
    requires c != '"' && c != '\\' && !IsLineTerminator(c)
    ensures NextId(37, c) == 37 && NextId(37, '"') == 39 && NextId(37, '\n') == 38 && NextId(37, '\\') == 40
  {
    Takes(37, c, 0);
    Takes(37, '"', 3);
    Takes(37, '\n', 2);
    Takes(37, '\\', 1);
  }

  lemma EscapeEdges()
    ensures NextId(40, '"') == 37 && NextId(40, '\\') == 37 && NextId(40, '\n') == 38
  {
    Takes(40, '"', 0);
    Takes(40, '\\', 0);
    Takes(40, '\n', 1);
  }

  /** A string runs through STRING_PARTIAL; the closing quote gives STRING and a
      newline STRING_INVALID, both halting; a backslash escapes the next character. */
  lemma StringCodes()
    ensures CodeOf(37) == STRING_PARTIAL && !HaltsAt(37) && CodeOf(39) == STRING && HaltsAt(39)
    ensures CodeOf(38) == STRING_INVALID && HaltsAt(38) && CodeOf(40) == STRING_PARTIAL && !HaltsAt(40)
  {
  }

  lemma StringSubmachine(c: char)
    requires c != '"' && c != '\\' && !IsLineTerminator(c)
    ensures NextId(0, '"') == 37 && NextId(37, c) == 37 && CodeOf(37) == STRING_PARTIAL && !HaltsAt(37)
    ensures NextId(37, '"') == 39 && CodeOf(39) == STRING && HaltsAt(39)
    ensures NextId(37, '\n') == 38 && CodeOf(38) == STRING_INVALID && HaltsAt(38)
    ensures NextId(37, '\\') == 40 && CodeOf(40) == STRING_PARTIAL && !HaltsAt(40)
    ensures NextId(40, '"') == 37 && NextId(40, '\\') == 37 && NextId(40, '\n') == 38
  {
    StartOnQuote();
    StringEdges(c);
    EscapeEdges();
    StringCodes();
  }

  /** No transition of the start state accepts '$'. */
  lemma StartStopsOnDollar()
    ensures NextId(0, '$') == STOPPED
  {
    var ts := TransitionsOf(0);
    assert forall k :: 0 <= k < |ts| ==> !Matches(ts[k].pattern, '$');
    NoMatchStops(ts, '$');
  }

  /** After `~` only '=' is accepted. */
  lemma TildeStops(c: char)
    requires c != '='
    ensures NextId(9, c) == STOPPED
  {
    NoMatchStops(TransitionsOf(9), c);
  }

  /** Letters, digits and '_' continue an identifier; a carriage return, which
      `\\s` knows but the identifier class does not, stops it. */
  lemma IdentEdges(c: char)
    requires ('a' <= c <= 'z') || ('A' <= c <= 'Z') || ('0' <= c <= '9') || c == '_'
    ensures NextId(30, c) == 30 && NextId(30, '\r') == STOPPED
    ensures CodeOf(30) == IDENT && !HaltsAt(30)
  {
    AlphaNumUsMeaning(c);
    Takes(30, c, 0);
    AlphaNumUsMeaning('\r');
    NoMatchStops(TransitionsOf(30), '\r');
  }

  /** A line comment takes every character but the line terminators, and '\n'
      closes it with a halting COMMENT state. */
  lemma LineCommentEdges(c: char)
    requires !IsLineTerminator(c)
    ensures NextId(41, c) == 41 && NextId(41, '\n') == 42
    ensures CodeOf(41) == COMMENT && !HaltsAt(41) && CodeOf(42) == COMMENT && HaltsAt(42)
  {
    Takes(41, c, 0);
    Takes(41, '\n', 1);
  }

  /** Whitespace, and in particular '\n', never stops the start state. */
  lemma StartTakesNewline()
    ensures NextId(0, '\n') == 0
  {
    Takes(0, '\n', 0);
  }

  /** The automaton object: the table is fixed at construction, and `advance` and
      `reset` update the current state, the flags and the history in place. */
  class StateMachine {
    var history: seq<StateId>
    var valid: bool
    var rewinding: bool
    var current: StateId

    ghost predicate Valid()
      reads this
    {
      |history| > 0 && history[|history| - 1] == current
    }

    /** The object's state as a `Machine` value. */
    function Snapshot(): (m: Machine)
      reads this
      requires Valid()
      ensures m.Consistent()
    {
      Machine(history, valid, rewinding, current)
    }

    /** A fresh machine: the history holds the start state only. */
    constructor ()
      ensures Valid() && Snapshot() == Start()
    {
      history := [0];
      valid := true;
      rewinding := false;
      current := 0;
    }

    /** `stopped()`: whether the machine can no longer continue. */
    function Stopped(): (b: bool)
      reads this
      requires Valid()
      ensures b <==> !Snapshot().valid
    {
      !valid
    }

    /** `rewind()`: whether the last character must be fed again. */
    function Rewind(): (b: bool)
      reads this
      requires Valid()
      ensures b <==> Snapshot().rewind
    {
      rewinding
    }

    /** `getCurrentTSCode()`: the code of the last state in the history. */
    function CurrentTSCode(): (code: TSCode)
      reads this
      requires Valid()
      ensures code == Snapshot().CurrentCode()
    {
      CodeOf(history[|history| - 1])
    }

    /** `advance(c)`: looks the target up with `getNext` on the current state. */
    method Advance(c: char)
      requires Valid()
      modifies this
      ensures Valid() && Snapshot() == Step(old(Snapshot()), c)
    {
      var next := GetNext(StateAt(current), c);
      assert next == NextId(current, c);
      if next == STOPPED {
        valid := false;
        rewinding := true;
      } else {
        current := next;
        history := history + [current];
        if HaltsAt(current) {
          valid := false;
        }
      }
    }

    /** `reset()`: back to the start state with a one-entry history. */
    method Reset()
      modifies this
      ensures Valid() && Snapshot() == Start()
    {
      history := [0];
      valid := true;
      rewinding := false;
      current := 0;
    }

    /** `getTSCodeChain()`: the codes of the history, collected in order. */
    method GetTSCodeChain() returns (chain: seq<TSCode>)
      requires Valid()
      ensures chain == Snapshot().CodeChain()
    {
      chain := [];
      var i := 0;
      while i < |history|
        invariant 0 <= i <= |history|
        invariant |chain| == i
        invariant forall j :: 0 <= j < i ==> chain[j] == CodeOf(history[j])
      {
        chain := chain + [CodeOf(history[i])];
        i := i + 1;
      }
    }
  }
}
