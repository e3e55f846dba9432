/**
 * The lexical analyzer: `getNextToken` feeds characters from a one-byte
 * pushback stream to the automaton, accumulates the token text, backs up a
 * character when the automaton asks for it, drops comments and turns the
 * halting state's code into a token.
 *
 * Two generations of the analyzer are modelled. They differ in what a dropped
 * comment leaves in the text and in the span of a string token the escape
 * decoder reads.
 */
module Lexer {
  import opened TokenCodes
  import opened Patterns
  import opened LexStates
  import opened Automaton
  import opened Tokens
  import opened Exceptions
  import opened Escapes
  import JavaInt

  datatype Variant = Live | Legacy

  type byte = JavaInt.byte

  /** `(char) read()`: each byte of the stream becomes one character. */
  function AsChars(data: seq<byte>): (cs: seq<char>)
    ensures |cs| == |data|
    ensures forall i :: 0 <= i < |data| ==> cs[i] as int == data[i] as int
  {
    seq(|data|, i requires 0 <= i < |data| => (data[i] as int) as char)
  }

  /** `createToken`: the text of STRING and STRING_INVALID tokens is decoded,
      without its first and last character in the live analyzer and whole in the
      legacy one; any other token keeps its text. */
  function MakeToken(v: Variant, code: TSCode, line: int, col: int, seqno: int, text: string): TokenView
  {
    var value :=
      if code == STRING || code == STRING_INVALID then
        (if v == Live then Decode(StripQuotes(text), false) else Decode(text, false))
      else text;
    TokenView(code, line, col, seqno, Some(value))
  }

  /** Everything one call of `getNextToken` works on: the stream (the pushed-back
      character, if any, then the unread input), the automaton, the positions and
      sequence number, and the call's locals (the text so far and the last code). */
  datatype Scan = Scan(
    pushback: seq<char>, input: seq<char>, machine: Machine,
    startLine: int, startCol: int, currLine: int, currCol: int, seqno: int,
    text: string, rc: TSCode)
  {
    ghost predicate Good()
    {
      machine.Consistent() && |pushback| <= 1
    }

    /** Characters left to read. */
    function Remaining(): nat
    {
      |pushback| + |input|
    }

    /** Secondary measure: a character read back from the pushback buffer by a
        machine just reset cannot cause another push-back without consuming. */
    function Phase(): nat
    {
      if pushback == [] then 2 else if machine == Start() then 0 else 1
    }
  }

  /** `read()`: the pushed-back character first, then the input. */
  function ReadNext(s: Scan): (r: (char, Scan))
    requires s.Remaining() > 0 && |s.pushback| <= 1
    ensures r.1.pushback == [] && r.1.Remaining() == s.Remaining() - 1
    ensures r.1 == s.(pushback := r.1.pushback, input := r.1.input)
  {
    if s.pushback != [] then (s.pushback[0], s.(pushback := []))
    else (s.input[0], s.(input := s.input[1..]))
  }

  /** Line and column after consuming `c`. */
  function Count(s: Scan, c: char): (r: Scan)
    ensures c == '\n' ==> r.currLine == s.currLine + 1 && r.currCol == 0
    ensures c != '\n' ==> r.currLine == s.currLine && r.currCol == s.currCol + 1
    ensures r == s.(currLine := r.currLine, currCol := r.currCol)
  {
    if c == '\n' then s.(currLine := s.currLine + 1, currCol := 0)
    else s.(currCol := s.currCol + 1)
  }

  /** The next token starts where the scan now is. */
  function MarkStart(s: Scan): Scan
  {
    s.(startLine := s.currLine, startCol := s.currCol)
  }

  /** How one pass of the read loop ends. */
  datatype Pass = Continue(s: Scan) | Return(s: Scan, token: TokenView) | Fail(s: Scan, e: Exception)

  /** The machine stopped on UNKNOWN. The backup pushes `c` back into the buffer
      the read just emptied and deletes the last text character; its loop then
      pushes back another character, which the full one-byte buffer refuses,
      unless the text is empty, when `charAt(-1)` fails first. The backup never
      reaches its recovery code. */
  function BackOff(s: Scan, c: char): (p: Pass)
    requires s.pushback == []
    ensures p.Fail?
  {
    var s1 := s.(pushback := [c], currCol := s.currCol - 1);
    if |s1.text| == 0 then Fail(s1, IndexOutOfBounds(-1))
    else
      var s2 := s1.(text := s1.text[..|s1.text| - 1]);
      if |s2.text| == 0 then Fail(s2, IndexOutOfBounds(-1)) else Fail(s2, PUSHBACK_FULL)
  }

  /** The machine stopped on any other code. When it asks for a rewind and `c` is
      not '\n', `c` is pushed back and the last text character deleted; then the
      machine is reset and a comment is dropped, any other code returned as a
      token. */
  function Halt(v: Variant, s: Scan, c: char): Pass
    requires s.pushback == []
  {
    var back := s.machine.rewind && c != '\n';
    if back && |s.text| == 0 then
      Fail(s.(currCol := s.currCol - 1, pushback := [c]), IndexOutOfBounds(-1))
    else
      Settle(v, if back then s.(currCol := s.currCol - 1, pushback := [c], text := s.text[..|s.text| - 1]) else s, c)
  }

  /** The rest of a halt, once any push-back is done: the machine is reset, then
      a comment is dropped and any other code returned as a token, and the next
      token starts after `c`. */
  function Settle(v: Variant, s: Scan, c: char): Pass
  {
    if s.rc == COMMENT then DropComment(v, s.(machine := Start()), c)
    else Emit(v, s.(machine := Start()), c)
  }

  /** A dropped comment: the live analyzer clears the text, the legacy one keeps
      its last character, and fails on an empty text. */
  function DropComment(v: Variant, s: Scan, c: char): Pass
  {
    if v == Live then Continue(MarkStart(Count(s.(text := []), c)))
    else if |s.text| == 0 then Fail(s, IndexOutOfBounds(-1))
    else Continue(MarkStart(Count(s.(text := [s.text[|s.text| - 1]]), c)))
  }

  /** A returned token: the text with the start position and sequence number of
      the scan, which then moves on. */
  function Emit(v: Variant, s: Scan, c: char): Pass
  {
    var token := MakeToken(v, s.rc, s.startLine, s.startCol, s.seqno, s.text);
    var s3 := MarkStart(Count(s, c));
    Return(s3.(seqno := s3.seqno + 1), token)
  }

  /** The text after reading `c` with code `rc`: `c` is kept unless the code is
      NONE (leading whitespace) or `c` is a line break. */
  function Kept(text: string, rc: TSCode, c: char): string
  {
    if rc != NONE && c != '\n' && c != '\r' then text + [c] else text
  }

  /** The first half of a pass on the character `c` just read: advance the
      machine, record its code, and keep `c` in the text unless the code is NONE or
      `c` is a line break. */
  function Advance(s: Scan, c: char): (r: Scan)
    requires s.Good()
    ensures r.machine == Step(s.machine, c) && r.rc == r.machine.CurrentCode()
    ensures r.text == Kept(s.text, r.rc, c)
    ensures r == s.(machine := r.machine, rc := r.rc, text := r.text)
  {
    var m := Step(s.machine, c);
    var rc := m.CurrentCode();
    s.(machine := m, rc := rc, text := Kept(s.text, rc, c))
  }

  /** The second half: a running machine counts `c` and goes on; a stopped one
      backs off on UNKNOWN and halts otherwise. */
  function Dispatch(v: Variant, s: Scan, c: char): Pass
    requires s.pushback == []
  {
    if s.machine.valid then Continue(Running(s, c))
    else if s.rc == UNKNOWN then BackOff(s, c)
    else Halt(v, s, c)
  }

  /** A running machine's scan after `c`: counted, and a newline outside any
      token moves the next token's start past it. */
  function Running(s: Scan, c: char): Scan
  {
    var s1 := Count(s, c);
    if s.rc == NONE && c == '\n' then MarkStart(s1) else s1
  }

  /** One pass of the read loop. */
  function Feed(v: Variant, s: Scan, c: char): Pass
    requires s.Good() && s.pushback == []
  {
    Dispatch(v, Advance(s, c), c)
  }

  /** A halt that continues drops a comment: it resets the machine, and pushes
      `c` back only when the machine asked for a rewind. */
  lemma HaltContinues(v: Variant, s: Scan, c: char)
    requires s.pushback == [] && Halt(v, s, c).Continue?
    ensures s.rc == COMMENT
    ensures Halt(v, s, c).s.machine == Start()
    ensures Halt(v, s, c).s.input == s.input
    ensures Halt(v, s, c).s.pushback == [] || (Halt(v, s, c).s.pushback == [c] && s.machine.rewind)
  {
  }

  /** The second half of a pass continues either with the machine still running
      and nothing pushed back, or after dropping a comment. */
  lemma DispatchContinues(v: Variant, s: Scan, c: char)
    requires s.Good() && s.pushback == [] && Dispatch(v, s, c).Continue?
    ensures Dispatch(v, s, c).s.Good()
    ensures Dispatch(v, s, c).s.input == s.input
    ensures Dispatch(v, s, c).s.pushback == []
      || (Dispatch(v, s, c).s.pushback == [c] && Dispatch(v, s, c).s.machine == Start()
          && s.machine.rewind && s.rc == COMMENT)
  {
    if !s.machine.valid && s.rc != UNKNOWN {
      HaltContinues(v, s, c);
    }
  }

  /** A pass that continues keeps the scan well-formed, and either consumes `c`
      or pushes it back after resetting a machine that was not freshly reset:
      from the start state a rewind comes only with code NONE, which is returned,
      not dropped. */
  lemma {:induction false} FeedContinues(v: Variant, s: Scan, c: char)
    requires s.Good() && s.pushback == []
    requires Feed(v, s, c).Continue?
    ensures Feed(v, s, c).s.Good()
    ensures Feed(v, s, c).s.input == s.input
    ensures Feed(v, s, c).s.pushback == []
      || (Feed(v, s, c).s.pushback == [c] && Feed(v, s, c).s.machine == Start() && s.machine != Start())
  {
    var s1 := Advance(s, c);
    DispatchContinues(v, s1, c);
    if s.machine == Start() {
      StartRewindIsNone(c);
    }
  }

  /** The analyzer only ever throws these two exceptions once initialized: the
      failed `deleteCharAt`/`charAt` on an empty text and the refused second
      push-back. */
  predicate LexFailure(e: Exception)
  {
    e == IndexOutOfBounds(-1) || e == PUSHBACK_FULL
  }

  /** A returned token carries the halting code, which is neither UNKNOWN nor
      COMMENT, and the start position and sequence number of the scan; the
      sequence number then moves on by one. Nothing else changes it, and a
      failure is one of the two lexer failures. */
  lemma DispatchOutcomes(v: Variant, s: Scan, c: char)
    requires s.pushback == []
    ensures Dispatch(v, s, c).Return? ==>
      var t := Dispatch(v, s, c).token;
      t.code == s.rc && s.rc != UNKNOWN && s.rc != COMMENT
      && t.lineNo == s.startLine && t.colNo == s.startCol && t.seqNo == s.seqno
      && Dispatch(v, s, c).s.seqno == s.seqno + 1
    ensures !Dispatch(v, s, c).Return? ==> Dispatch(v, s, c).s.seqno == s.seqno
    ensures Dispatch(v, s, c).Fail? ==> LexFailure(Dispatch(v, s, c).e)
  {
  }

  /** How the read loop ends: out of input, on a returned token, or on an
      exception. */
  datatype LoopEnd = AtEof(s: Scan) | Broke(s: Scan, token: TokenView) | Threw(s: Scan, e: Exception)

  function Loop(v: Variant, s: Scan): LoopEnd
    requires s.Good()
    decreases s.Remaining(), s.Phase()
  {
    if s.Remaining() == 0 then AtEof(s)
    else
      var (c, s1) := ReadNext(s);
      match Feed(v, s1, c)
      case Continue(s2) =>
        FeedContinues(v, s1, c);
        Loop(v, s2)
      case Return(s2, token) => Broke(s2, token)
      case Fail(s2, e) => Threw(s2, e)
  }

  /** `a` comes before `b` in the order the read loop's measure decreases. */
  predicate Sooner(a: Scan, b: Scan)
  {
    a.Remaining() < b.Remaining() || (a.Remaining() == b.Remaining() && a.Phase() < b.Phase())
  }

  /** One turn of the read loop: the pass on the character read decides how the
      loop goes on or ends. */
  lemma LoopTurn(v: Variant, s: Scan)
    requires s.Good()
    ensures s.Remaining() == 0 ==> Loop(v, s) == AtEof(s)
    ensures s.Remaining() > 0 ==>
      var p := Feed(v, ReadNext(s).1, ReadNext(s).0);
      && (p.Continue? ==> p.s.Good() && Loop(v, s) == Loop(v, p.s))
      && (p.Return? ==> Loop(v, s) == Broke(p.s, p.token))
      && (p.Fail? ==> Loop(v, s) == Threw(p.s, p.e))
  {
    if s.Remaining() > 0 && Feed(v, ReadNext(s).1, ReadNext(s).0).Continue? {
      FeedContinues(v, ReadNext(s).1, ReadNext(s).0);
    }
  }

  /** The same turn, on the character `c` and the scan `s1` that reading from
      `s` gives; a pass that goes on leaves less to do. */
  lemma LoopTurnOn(v: Variant, s: Scan, c: char, s1: Scan)
    requires s.Good() && s.Remaining() > 0 && (c, s1) == ReadNext(s)
    ensures s1.Good() && s1.pushback == []
    ensures Feed(v, s1, c).Continue? ==>
      Feed(v, s1, c).s.Good() && Sooner(Feed(v, s1, c).s, s) && Loop(v, s) == Loop(v, Feed(v, s1, c).s)
    ensures Feed(v, s1, c).Return? ==> Loop(v, s) == Broke(Feed(v, s1, c).s, Feed(v, s1, c).token)
    ensures Feed(v, s1, c).Fail? ==> Loop(v, s) == Threw(Feed(v, s1, c).s, Feed(v, s1, c).e)
  {
    LoopTurn(v, s);
    if Feed(v, s1, c).Continue? {
      FeedContinues(v, s1, c);
    }
  }

  /** What `getNextToken` returns. */
  datatype Outcome = Produced(token: TokenView) | NoToken | Raised(e: Exception)

  const NOT_INITIALIZED: Exception := RuntimeException("Analyzer::getNextToken() called before init()")

  /** `getNextToken` on an initialized stream: the loop from an empty text and
      code NONE; a last code of STRING_PARTIAL turns the result into a
      STRING_INVALID token of the text left, and otherwise running out of input
      returns the NONE token and drops what was pending. */
  function NextToken(v: Variant, s: Scan): (r: (Outcome, Scan))
    requires s.Good()
  {
    var s0 := s.(text := [], rc := NONE);
    match Loop(v, s0)
    case Threw(s1, e) => (Raised(e), s1)
    case AtEof(s1) => (Closing(v, s1, NoToken), s1)
    case Broke(s1, token) => (Closing(v, s1, Produced(token)), s1)
  }

  /** After the loop: a string still open when it ended becomes an invalid
      string token in place of what the loop found. */
  function Closing(v: Variant, s: Scan, found: Outcome): Outcome
  {
    if s.rc == STRING_PARTIAL then Produced(MakeToken(v, STRING_INVALID, s.startLine, s.startCol, s.seqno, s.text))
    else found
  }

  /** The loop returns the halting token with the sequence number it started
      from and moves that number on by one; running out of input or failing leaves
      it alone, and a failure is one of the two lexer failures. */
  lemma {:induction false} LoopOutcomes(v: Variant, s: Scan)
    requires s.Good()
    ensures Loop(v, s).Broke? ==>
      var t := Loop(v, s).token;
      t.code != UNKNOWN && t.code != COMMENT && t.code == Loop(v, s).s.rc
      && t.seqNo == s.seqno && Loop(v, s).s.seqno == s.seqno + 1
    ensures !Loop(v, s).Broke? ==> Loop(v, s).s.seqno == s.seqno
    ensures Loop(v, s).Threw? ==> LexFailure(Loop(v, s).e)
    decreases s.Remaining(), s.Phase()
  {
    if s.Remaining() > 0 {
      var (c, s1) := ReadNext(s);
      var s2 := Advance(s1, c);
      DispatchOutcomes(v, s2, c);
      if Feed(v, s1, c).Continue? {
        FeedContinues(v, s1, c);
        LoopOutcomes(v, Feed(v, s1, c).s);
      }
    }
  }

  /** `getNextToken` never returns an UNKNOWN, COMMENT or STRING_PARTIAL token
      (an unterminated string comes back as STRING_INVALID), moves the sequence
      number on by at most one, and fails only with the two lexer failures. */
  lemma NextTokenOutcomes(v: Variant, s: Scan)
    requires s.Good()
    ensures NextToken(v, s).0.Produced? ==>
      var code := NextToken(v, s).0.token.code;
      code != UNKNOWN && code != COMMENT && code != STRING_PARTIAL
    ensures NextToken(v, s).1.seqno == s.seqno || NextToken(v, s).1.seqno == s.seqno + 1
    ensures NextToken(v, s).0.Produced? && NextToken(v, s).1.rc != STRING_PARTIAL ==>
      NextToken(v, s).0.token.seqNo == s.seqno && NextToken(v, s).1.seqno == s.seqno + 1
    ensures NextToken(v, s).0.Raised? ==> LexFailure(NextToken(v, s).0.e)
  {
    LoopOutcomes(v, s.(text := [], rc := NONE));
  }

  /** A machine whose code is NONE, stopped by a character other than '\n',
      makes `getNextToken` fail in `deleteCharAt(-1)`: it asks for a rewind and
      the text to delete from is empty. */
  lemma StopWithNoTextFails(v: Variant, s: Scan)
    requires s.Good() && s.Remaining() > 0 && s.machine.CurrentCode() == NONE
    requires ReadNext(s).0 != '\n' && NextId(s.machine.current, ReadNext(s).0) == STOPPED
    ensures NextToken(v, s).0 == Raised(IndexOutOfBounds(-1))
  {
    var s0 := s.(text := [], rc := NONE);
    var (c, s1) := ReadNext(s0);
    var s2 := Advance(s1, c);
    assert s2.machine == s.machine.(valid := false, rewind := true);
    assert Feed(v, s1, c).Fail?;
  }

  /** A character the start state has no transition for is such a character. */
  lemma UnrecognizedAtStartFails(v: Variant, s: Scan)
    requires s.Good() && s.machine == Start() && s.Remaining() > 0
    requires NextId(0, ReadNext(s).0) == STOPPED
    ensures NextToken(v, s).0 == Raised(IndexOutOfBounds(-1))
  {
    StartTakesNewline();
    StopWithNoTextFails(v, s);
  }

  /** '$' is one. */
  lemma DollarFails(v: Variant, s: Scan)
    requires s.Good() && s.machine == Start() && s.Remaining() > 0 && ReadNext(s).0 == '$'
    ensures NextToken(v, s).0 == Raised(IndexOutOfBounds(-1))
  {
    StartStopsOnDollar();
    UnrecognizedAtStartFails(v, s);
  }

  /** A running machine that moves on `c` to a state that does not halt goes on,
      recording the state and its code and counting `c`. */
  lemma FeedTakes(v: Variant, s: Scan, c: char)
    requires s.Good() && s.pushback == [] && s.machine.valid && c != '\n'
    requires NextId(s.machine.current, c) != STOPPED && !HaltsAt(NextId(s.machine.current, c))
    ensures var n := NextId(s.machine.current, c);
      Feed(v, s, c) == Continue(s.(machine := Machine(s.machine.history + [n], true, s.machine.rewind, n),
        rc := CodeOf(n), text := Kept(s.text, CodeOf(n), c), currCol := s.currCol + 1))
  {
  }

  /** A machine that stops on UNKNOWN always fails: the back-off never reaches
      the recovery it was written for. Only a text of at most one character
      (after keeping `c`) fails in `charAt(-1)` rather than in the second
      push-back. */
  lemma UnknownStopFails(v: Variant, s: Scan, c: char)
    requires s.Good() && s.pushback == [] && s.machine.CurrentCode() == UNKNOWN
    requires NextId(s.machine.current, c) == STOPPED
    ensures Feed(v, s, c).Fail?
    ensures Feed(v, s, c).e == if |Kept(s.text, UNKNOWN, c)| <= 1 then IndexOutOfBounds(-1) else PUSHBACK_FULL
  {
  }

  /** A lone `~` followed by anything but '=' or a line break stops the machine
      on UNKNOWN, and the back-off's second push-back is refused. */
  lemma TildeAloneFails(v: Variant, s: Scan)
    requires s.Good() && s.machine == Start() && s.pushback == [] && |s.input| >= 2
    requires s.input[0] == '~' && s.input[1] != '=' && s.input[1] != '\n' && s.input[1] != '\r'
    ensures NextToken(v, s).0 == Raised(PUSHBACK_FULL)
  {
    TildeSubmachine();
    TildeStops(s.input[1]);
    var s0 := s.(text := [], rc := NONE);
    var s1 := s0.(input := s.input[1..]);
    assert ReadNext(s0) == ('~', s1);
    FeedTakes(v, s1, '~');
    var s3 := Feed(v, s1, '~').s;
    assert Loop(v, s0) == Loop(v, s3);
    var x := s.input[1];
    var s4 := s3.(input := s.input[2..]);
    assert ReadNext(s3) == (x, s4);
    UnknownStopFails(v, s4, x);
  }

  /** A machine stopped on `c` (no transition) with any other code than UNKNOWN or
      COMMENT, and `c` not '\n', pushes `c` back, deletes the last text character
      and returns the token. When `c` was never kept (a '\r', or any character
      under code NONE) the deleted character is the token's own last one. */
  lemma StopReturnsToken(v: Variant, s: Scan, c: char)
    requires s.Good() && s.pushback == [] && c != '\n' && |s.text| > 0
    requires NextId(s.machine.current, c) == STOPPED
    requires s.machine.CurrentCode() != UNKNOWN && s.machine.CurrentCode() != COMMENT
    ensures Feed(v, s, c).Return? && Feed(v, s, c).s.pushback == [c]
    ensures Feed(v, s, c).s.rc == s.machine.CurrentCode()
    ensures Feed(v, s, c).token == MakeToken(v, s.machine.CurrentCode(), s.startLine, s.startCol, s.seqno,
      if c == '\r' || s.machine.CurrentCode() == NONE then s.text[..|s.text| - 1] else s.text)
  {
    var code := s.machine.CurrentCode();
    var s2 := Advance(s, c);
    assert s2.machine == s.machine.(valid := false, rewind := true);
    assert s2.rc == code;
    var text := if c == '\r' || code == NONE then s.text[..|s.text| - 1] else s.text;
    assert s2.text[..|s2.text| - 1] == text;
    assert Feed(v, s, c) == Halt(v, s2, c);
  }

  /** A running machine that moves on `c` into a halting state resets: a comment
      is dropped, the live analyzer clearing the text and the legacy one keeping its
      last character; any other code is returned with the whole text. */
  lemma FeedHalts(v: Variant, s: Scan, c: char)
    requires s.Good() && s.pushback == [] && !s.machine.rewind
    requires NextId(s.machine.current, c) != STOPPED && HaltsAt(NextId(s.machine.current, c))
    requires CodeOf(NextId(s.machine.current, c)) != UNKNOWN
    ensures var code := CodeOf(NextId(s.machine.current, c));
      var text := Kept(s.text, code, c);
      && (code == COMMENT && (v == Live || |text| > 0) ==>
        Feed(v, s, c).Continue? && Feed(v, s, c).s.machine == Start() && Feed(v, s, c).s.pushback == []
        && Feed(v, s, c).s.input == s.input && Feed(v, s, c).s.seqno == s.seqno
        && Feed(v, s, c).s.text == (if v == Live then [] else [text[|text| - 1]]))
      && (code != COMMENT ==>
        Feed(v, s, c).Return? && Feed(v, s, c).s.rc == code
        && Feed(v, s, c).token == MakeToken(v, code, s.startLine, s.startCol, s.seqno, text))
  {
  }

  /** An identifier ended by '\r' loses its last character: `ab\r` gives the
      identifier `a`, and the '\r' is read again. */
  lemma CarriageReturnCutsIdentifier(v: Variant, s: Scan)
    requires s.Good() && s.machine == Start() && s.pushback == [] && s.input == "ab\r"
    ensures NextToken(v, s).0 == Produced(TokenView(IDENT, s.startLine, s.startCol, s.seqno, Some("a")))
  {
    StartOnLetter('a');
    IdentEdges('b');
    var s0 := s.(text := [], rc := NONE);
    var s1 := s0.(input := "b\r");
    assert ReadNext(s0) == ('a', s1);
    FeedTakes(v, s1, 'a');
    var s3 := Feed(v, s1, 'a').s;
    assert Loop(v, s0) == Loop(v, s3);
    IdentifierTail(v, s3);
  }

  lemma IdentifierTail(v: Variant, s3: Scan)
    requires s3.Good() && s3.pushback == [] && s3.input == "b\r"
    requires s3.machine == Machine([0, 30], true, false, 30) && s3.text == "a"
    ensures Loop(v, s3).Broke? && Loop(v, s3).s.rc == IDENT
    ensures Loop(v, s3).token == TokenView(IDENT, s3.startLine, s3.startCol, s3.seqno, Some("a"))
  {
    IdentEdges('b');
    var s4 := s3.(input := "\r");
    assert ReadNext(s3) == ('b', s4);
    FeedTakes(v, s4, 'b');
    var s5 := Feed(v, s4, 'b').s;
    assert s5.text == "ab";
    assert Loop(v, s3) == Loop(v, s5);
    var s6 := s5.(input := []);
    assert ReadNext(s5) == ('\r', s6);
    StopReturnsToken(v, s6, '\r');
    assert s6.text[..1] == "a";
    var p := Feed(v, s6, '\r');
    assert p.s.rc == IDENT;
    assert Loop(v, s5) == Broke(p.s, p.token);
  }

  /** An identifier still open when the input ends is dropped: `getNextToken`
      returns the NONE token. */
  lemma PendingIdentifierDropped(v: Variant, s: Scan)
    requires s.Good() && s.machine == Start() && s.pushback == [] && s.input == "x"
    ensures NextToken(v, s).0 == NoToken
  {
    StartOnLetter('x');
    IdentEdges('x');
    var s0 := s.(text := [], rc := NONE);
    var s1 := s0.(input := []);
    assert ReadNext(s0) == ('x', s1);
    FeedTakes(v, s1, 'x');
    var s3 := Feed(v, s1, 'x').s;
    assert s3.rc == IDENT;
    assert Loop(v, s0) == Loop(v, s3);
    assert Loop(v, s3) == AtEof(s3);
  }

  /** A string still open when the input ends comes back as STRING_INVALID. The
      live analyzer decodes the text without its first and last characters, so the
      string's last character is lost with the quote; the legacy one decodes the
      quote too. */
  lemma UnterminatedStringAtEof(v: Variant, s: Scan)
    requires s.Good() && s.machine == Start() && s.pushback == [] && s.input == "\"a"
    ensures NextToken(v, s).0 == Produced(TokenView(STRING_INVALID, s.startLine, s.startCol, s.seqno,
      Some(if v == Live then "" else "\"a")))
  {
    StartOnQuote();
    StringCodes();
    var s0 := s.(text := [], rc := NONE);
    var s1 := s0.(input := "a");
    assert ReadNext(s0) == ('"', s1);
    FeedTakes(v, s1, '"');
    var s3 := Feed(v, s1, '"').s;
    assert Loop(v, s0) == Loop(v, s3);
    StringTail(v, s3);
    var e := Loop(v, s3).s;
    assert NextToken(v, s).0 == Produced(MakeToken(v, STRING_INVALID, s.startLine, s.startCol, s.seqno, "\"a"));
    assert Decode("\"a", false) == "\"a" && StripQuotes("\"a") == "";
  }

  lemma StringTail(v: Variant, s3: Scan)
    requires s3.Good() && s3.pushback == [] && s3.input == "a"
    requires s3.machine == Machine([0, 37], true, false, 37) && s3.text == "\""
    ensures Loop(v, s3).AtEof? && Loop(v, s3).s.rc == STRING_PARTIAL && Loop(v, s3).s.text == "\"a"
    ensures Loop(v, s3).s.startLine == s3.startLine && Loop(v, s3).s.startCol == s3.startCol
    ensures Loop(v, s3).s.seqno == s3.seqno
  {
    StringSubmachine('a');
    var s4 := s3.(input := []);
    assert ReadNext(s3) == ('a', s4);
    FeedTakes(v, s4, 'a');
    var s5 := Feed(v, s4, 'a').s;
    assert s5.text == "\"a" && s5.rc == STRING_PARTIAL;
    assert Loop(v, s3) == Loop(v, s5);
    assert Loop(v, s5) == AtEof(s5);
  }
}
