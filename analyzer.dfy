/**
 * The analyzer object: a one-byte pushback stream over the input, the
 * automaton, and the positions and sequence number that `getNextToken` updates
 * in place. Each method is proved against the functions of the Lexer module.
 */
module Analyzers {
  import opened TokenCodes
  import opened Automaton
  import opened Tokens
  import opened Exceptions
  import opened Escapes
  import opened Lexer

  /** What `getNextToken` hands back: a new token, the shared NONE token, or an
      exception. */
  datatype Result = Returned(token: Token) | ReturnedNone | Failed(e: Exception)

  class Analyzer {
    const variant: Variant
    const machine: StateMachine
    /** Whether a stream is open (`m_ifs != null`). */
    var initialized: bool
    /** The pushback buffer of the stream: one character at most. */
    var pushback: seq<char>
    /** The characters the stream has not delivered yet. */
    var input: seq<char>
    var startLine: int
    var startCol: int
    var currLine: int
    var currCol: int
    var seqno: int

    ghost predicate Valid()
      reads this, machine
    {
      machine.Valid() && |pushback| <= 1
    }

    /** The analyzer's state, with the locals `text` and `rc` of a running
        `getNextToken`. */
    ghost function ScanWith(text: string, rc: TSCode): (s: Scan)
      reads this, machine
      requires Valid()
      ensures s.Good()
    {
      Scan(pushback, input, machine.Snapshot(), startLine, startCol, currLine, currCol, seqno, text, rc)
    }

    /** The analyzer's state between calls. */
    ghost function State(): (s: Scan)
      reads this, machine
      requires Valid()
      ensures s.Good()
    {
      ScanWith([], NONE)
    }

    /** A new analyzer has no stream, a machine in its start state, and every
        position at zero. */
    constructor (v: Variant)
      ensures Valid() && fresh(machine) && variant == v && !initialized
      ensures State() == Scan([], [], Start(), 0, 0, 0, 0, 0, [], NONE)
    {
      variant := v;
      machine := new StateMachine();
      initialized := false;
      pushback := [];
      input := [];
      startLine, startCol, currLine, currCol, seqno := 0, 0, 0, 0, 0;
    }

    /** `init`: opens a stream over `data` and zeroes the positions. The machine
        is left as it is. */
    method Init(data: seq<byte>)
      requires Valid()
      modifies this
      ensures Valid() && initialized && pushback == [] && input == AsChars(data)
      ensures startLine == 0 && startCol == 0 && currLine == 0 && currCol == 0 && seqno == 0
    {
      initialized := true;
      pushback := [];
      input := AsChars(data);
      startLine, startCol, currLine, currCol, seqno := 0, 0, 0, 0, 0;
    }

    /** The legacy `init(JTextField)`: the command line's bytes followed by ';'. */
    method InitCommandLine(line: seq<byte>)
      requires Valid() && variant == Legacy
      modifies this
      ensures Valid() && initialized && pushback == [] && input == AsChars(line) + [';']
      ensures startLine == 0 && startCol == 0 && currLine == 0 && currCol == 0 && seqno == 0
    {
      Init(line + [';' as int as byte]);
      assert AsChars(line + [';' as int as byte]) == AsChars(line) + [';'];
    }

    /** `reset`: the machine back to its start state and the positions to zero;
        the stream is not touched. */
    method Reset()
      requires Valid()
      modifies this, machine
      ensures Valid() && machine.Snapshot() == Start()
      ensures startLine == 0 && startCol == 0 && currLine == 0 && currCol == 0 && seqno == 0
      ensures initialized == old(initialized) && pushback == old(pushback) && input == old(input)
    {
      machine.Reset();
      startLine, startCol, currLine, currCol, seqno := 0, 0, 0, 0, 0;
    }

    /** `read()` of the pushback stream; `eof` stands for the -1 it returns at the
        end. */
    method Read() returns (eof: bool, c: char)
      requires Valid()
      modifies this
      ensures Valid() && unchanged(machine) && initialized == old(initialized)
      ensures eof <==> old(ScanWith([], NONE)).Remaining() == 0
      ensures eof ==> unchanged(this)
      ensures !eof ==> (c, ScanWith([], NONE)) == ReadNext(old(ScanWith([], NONE)))
    {
      if pushback != [] {
        eof := false;
        c := pushback[0];
        pushback := [];
      } else if input != [] {
        eof := false;
        c := input[0];
        input := input[1..];
      } else {
        eof := true;
        c := ' ';
      }
    }

    /** `createToken`: a new token carrying the code, the position and the
        sequence number, whose value is the text, decoded for a string. */
    method CreateToken(code: TSCode, line: int, col: int, seqNo: int, text: string) returns (t: Token)
      ensures fresh(t) && t.View() == MakeToken(variant, code, line, col, seqNo, text)
    {
      t := new Token(code);
      t.SetLineNo(line);
      t.SetColNo(col);
      t.SetSeqNo(seqNo);
      if code == STRING || code == STRING_INVALID {
        // The live analyzer reads between the first and the last character (none
        // when the text is shorter than two), the legacy one the whole text.
        var lo, hi := 0, |text|;
        if variant == Live {
          lo, hi := if |text| >= 2 then 1 else 0, if |text| >= 2 then |text| - 1 else 0;
        }
        assert text[lo..hi] == if variant == Live then StripQuotes(text) else text;
        var processed := DecodeSpan(text, lo, hi);
        t.SetValue(processed);
      } else {
        t.SetValue(text);
      }
    }

    /** `getNextToken`: before `init` it throws; afterwards it runs the read loop
        on the object's own fields and hands back what `NextToken` describes. */
    method GetNextToken() returns (r: Result)
      requires Valid()
      modifies this, machine
      ensures Valid() && initialized == old(initialized)
      ensures !old(initialized) ==> r == Failed(NOT_INITIALIZED) && State() == old(State())
      ensures old(initialized) ==>
        Reports(r, NextToken(variant, old(State())).0)
        && State() == NextToken(variant, old(State())).1.(text := [], rc := NONE)
      ensures r.Returned? ==> fresh(r.token)
    {
      if !initialized {
        return Failed(NOT_INITIALIZED);
      }
      var rc := NONE;
      var rtoken: Token? := null;
      var text: string := [];
      ghost var end := Loop(variant, ScanWith([], NONE));
      while true
        invariant Valid() && initialized && rtoken == null
        invariant Loop(variant, ScanWith(text, rc)) == end
        decreases ScanWith(text, rc).Remaining(), ScanWith(text, rc).Phase()
      {
        var eof, token, e;
        eof, text, rc, token, e := Turn(text, rc);
        if eof {
          break;
        }
        if e.Some? {
          return Failed(e.value);
        }
        if token != null {
          rtoken := token;
          break;
        }
      }
      r := Close(text, rc, rtoken);
    }

    /** What `getNextToken` returns once the loop ends with `text`, `rc` and
        the token found, if any. */
    method Close(text: string, rc: TSCode, found: Token?) returns (r: Result)
      requires Valid()
      ensures Reports(r, Closing(variant, ScanWith(text, rc), if found == null then NoToken else Produced(found.View())))
      ensures r.Returned? ==> fresh(r.token) || r.token == found
    {
      var rtoken := found;
      if rc == STRING_PARTIAL {
        rtoken := CreateToken(STRING_INVALID, startLine, startCol, seqno, text);
      }
      if rtoken == null {
        return ReturnedNone;
      }
      return Returned(rtoken);
    }

    /** One turn of the read loop: read a character, or find the input
        exhausted, and take it. */
    method Turn(text: string, rc0: TSCode) returns (eof: bool, next: string, rc: TSCode, token: Token?, e: Option<Exception>)
      requires Valid()
      modifies this, machine
      ensures Valid() && initialized == old(initialized)
      ensures Turned(old(ScanWith(text, rc0)), eof, next, rc, token, e)
      ensures token != null ==> fresh(token)
    {
      ghost var s := ScanWith(text, rc0);
      if s.Remaining() == 0 {
        LoopTurn(variant, s);
      }
      var c;
      eof, c := Read();
      if eof {
        return true, text, rc0, null, None;
      }
      ghost var s1 := ScanWith(text, rc0);
      LoopTurnOn(variant, s, c, s1);
      ghost var p := Feed(variant, s1, c);
      next, rc, token, e := Take(c, text, rc0);
      if p.Continue? {
        assert ScanWith(next, rc) == p.s;
      } else if p.Return? {
        assert ScanWith(next, rc) == p.s && token.View() == p.token;
      } else {
        assert ScanWith(next, rc) == p.s && e == Some(p.e);
      }
    }

    /** Where a turn from `s` leaves the read loop: ended, or going on from a
        scan with less left to read. */
    ghost predicate Turned(s: Scan, eof: bool, next: string, rc: TSCode, token: Token?, e: Option<Exception>)
      reads this, machine, token
      requires Valid() && s.Good()
    {
      var now := ScanWith(next, rc);
      if eof then token == null && e.None? && Loop(variant, s) == AtEof(now)
      else if e.Some? then token == null && Loop(variant, s) == Threw(now, e.value)
      else if token != null then Loop(variant, s) == Broke(now, token.View())
      else Loop(variant, s) == Loop(variant, now) && Sooner(now, s)
    }

    /** One turn of the read loop on the character `c` just read: advance the
        machine, keep `c` in the text, then go on, back up on UNKNOWN, or halt. */
    method Take(c: char, text: string, ghost rc0: TSCode) returns (next: string, rc: TSCode, token: Token?, e: Option<Exception>)
      requires Valid() && pushback == []
      modifies this, machine
      ensures Valid() && initialized == old(initialized)
      ensures Outcome(Feed(variant, old(ScanWith(text, rc0)), c), next, rc, token, e)
      ensures token != null ==> fresh(token)
    {
      ghost var s1 := ScanWith(text, rc0);
      machine.Advance(c);
      rc := machine.CurrentTSCode();
      next := text;
      if rc != NONE && c != '\n' && c != '\r' {
        next := next + [c];
      }
      assert ScanWith(next, rc) == Advance(s1, c);
      next, token, e := Conclude(c, next, rc);
    }

    /** The rest of a turn once the machine has moved: go on, back up on
        UNKNOWN, or halt. */
    method Conclude(c: char, text: string, rc: TSCode) returns (next: string, token: Token?, e: Option<Exception>)
      requires Valid() && pushback == []
      modifies this, machine
      ensures Valid() && initialized == old(initialized)
      ensures Outcome(Dispatch(variant, old(ScanWith(text, rc)), c), next, rc, token, e)
      ensures token != null ==> fresh(token)
    {
      ghost var s := ScanWith(text, rc);
      next := text;
      if machine.Stopped() {
        if rc == UNKNOWN {
          assert Dispatch(variant, s, c) == BackOff(s, c);
          var x;
          next, x := BackUp(c, next);
          return next, null, Some(x);
        }
        assert Dispatch(variant, s, c) == Halt(variant, s, c);
        next, token, e := Stop(c, next, rc);
      } else {
        assert Dispatch(variant, s, c) == Continue(Running(s, c));
        token, e := null, None;
        Proceed(c, text, rc);
      }
    }

    /** The position update while the machine runs, and the new start after a
        newline outside any token. */
    method Proceed(c: char, text: string, rc: TSCode)
      requires Valid()
      modifies this
      ensures Valid() && unchanged(machine) && initialized == old(initialized)
      ensures ScanWith(text, rc) == Running(old(ScanWith(text, rc)), c)
    {
      Count(c);
      if rc == NONE && c == '\n' {
        startLine := currLine;
        startCol := currCol;
      }
    }

    /** The back-up `getNextToken` attempts when the machine stops on UNKNOWN:
        the first push-back fits the buffer the read just emptied, the second
        never does. */
    method BackUp(c: char, text: string) returns (next: string, e: Exception)
      requires Valid() && pushback == []
      modifies this
      ensures Valid() && unchanged(machine) && initialized == old(initialized)
      ensures BackOff(old(ScanWith(text, UNKNOWN)), c) == Fail(ScanWith(next, UNKNOWN), e)
    {
      pushback := [c];
      currCol := currCol - 1;
      if |text| == 0 {
        return text, IndexOutOfBounds(-1);
      }
      next := text[..|text| - 1];
      if |next| == 0 {
        return next, IndexOutOfBounds(-1);
      }
      return next, PUSHBACK_FULL;
    }

    /** The halt of `getNextToken` on any other code: the push-back the machine
        asks for, which fails on an empty text, then the rest of the halt. */
    method Stop(c: char, text: string, rc: TSCode) returns (next: string, token: Token?, e: Option<Exception>)
      requires Valid() && pushback == []
      modifies this, machine
      ensures Valid() && initialized == old(initialized)
      ensures Outcome(Halt(variant, old(ScanWith(text, rc)), c), next, rc, token, e)
      ensures token != null ==> fresh(token)
    {
      ghost var s := ScanWith(text, rc);
      var failed;
      next, failed := PushBack(c, text, rc);
      if failed {
        return next, null, Some(IndexOutOfBounds(-1));
      }
      assert Halt(variant, s, c) == Settle(variant, ScanWith(next, rc), c);
      next, token, e := Resolve(c, next, rc);
    }

    /** The push-back a stopping machine asks for, unless the character was a
        newline: it moves the column back and gives up the text's last
        character, and fails on an empty text. */
    method PushBack(c: char, text: string, ghost rc: TSCode) returns (next: string, failed: bool)
      requires Valid() && pushback == []
      modifies this
      ensures Valid() && unchanged(machine) && initialized == old(initialized)
      ensures var s := old(ScanWith(text, rc));
        failed ==> Halt(variant, s, c) == Fail(ScanWith(next, rc), IndexOutOfBounds(-1))
      ensures var s := old(ScanWith(text, rc));
        !failed ==> Halt(variant, s, c) == Settle(variant, ScanWith(next, rc), c)
    {
      next := text;
      failed := false;
      if machine.Rewind() && c != '\n' {
        currCol := currCol - 1;
        pushback := [c];
        if |next| == 0 {
          return next, true;
        }
        next := next[..|next| - 1];
      }
    }

    /** The machine reset, then the comment drop or the new token, with the
        position update, that follow a halt. */
    method Resolve(c: char, text: string, rc: TSCode) returns (next: string, token: Token?, e: Option<Exception>)
      requires Valid()
      modifies this, machine
      ensures Valid() && initialized == old(initialized)
      ensures Outcome(Settle(variant, old(ScanWith(text, rc)), c), next, rc, token, e)
      ensures token != null ==> fresh(token)
    {
      machine.Reset();
      if rc == COMMENT {
        next, e := Drop(c, text, rc);
        token := null;
      } else {
        next, token := Emit(c, text, rc);
        e := None;
      }
    }

    /** The comment drop. */
    method Drop(c: char, text: string, ghost rc: TSCode) returns (next: string, e: Option<Exception>)
      requires Valid()
      modifies this
      ensures Valid() && unchanged(machine) && initialized == old(initialized)
      ensures Outcome(DropComment(variant, old(ScanWith(text, rc)), c), next, rc, null, e)
    {
      next := text;
      e := None;
      if variant == Live {
        next := [];
      } else {
        if |next| == 0 {
          e := Some(IndexOutOfBounds(-1));
          return;
        }
        next := [next[|next| - 1]];
      }
      Count(c);
      startLine := currLine;
      startCol := currCol;
    }

    /** The new token, and the sequence number moved on. */
    method Emit(c: char, text: string, rc: TSCode) returns (next: string, token: Token)
      requires Valid()
      modifies this
      ensures Valid() && unchanged(machine) && fresh(token) && initialized == old(initialized)
      ensures Outcome(Lexer.Emit(variant, old(ScanWith(text, rc)), c), next, rc, token, None)
    {
      next := text;
      token := CreateToken(rc, startLine, startCol, seqno, next);
      Count(c);
      startLine := currLine;
      startCol := currCol;
      seqno := seqno + 1;
    }

    /** The position update after reading `c`. */
    method Count(c: char)
      requires Valid()
      modifies this
      ensures Valid() && unchanged(machine)
      ensures c == '\n' ==> currLine == old(currLine) + 1 && currCol == 0
      ensures c != '\n' ==> currLine == old(currLine) && currCol == old(currCol) + 1
      ensures initialized == old(initialized) && pushback == old(pushback) && input == old(input)
      ensures startLine == old(startLine) && startCol == old(startCol) && seqno == old(seqno)
    {
      if c == '\n' {
        currLine := currLine + 1;
        currCol := 0;
      } else {
        currCol := currCol + 1;
      }
    }

    /** The object's state, the text `next` and the code `rc`, with the token or
        exception produced, are the pass `p`. */
    ghost predicate Outcome(p: Pass, next: string, rc: TSCode, token: Token?, e: Option<Exception>)
      reads this, machine, token
      requires Valid()
    {
      match p
      case Continue(s2) => e.None? && token == null && ScanWith(next, rc) == s2
      case Return(s2, t) => e.None? && token != null && token.View() == t && ScanWith(next, rc) == s2
      case Fail(s2, x) => e == Some(x) && token == null && ScanWith(next, rc) == s2
    }
  }

  /** Whether the object result `r` is what the outcome `o` describes. */
  ghost predicate Reports(r: Result, o: Outcome)
    reads if r.Returned? then {r.token} else {}
  {
    match o
    case Produced(t) => r.Returned? && r.token.View() == t
    case NoToken => r.ReturnedNone?
    case Raised(e) => r == Failed(e)
  }

  /** The escape-processing loop of `createToken` over `text[lo..hi]`. */
  method DecodeSpan(text: string, lo: int, hi: int) returns (processed: string)
    requires 0 <= lo <= hi <= |text|
    ensures processed == Decode(text[lo..hi], false)
  {
    processed := [];
    var escaped := false;
    var i := lo;
    DecodeOntoAppends([], text[lo..hi], false);
    assert [] + Decode(text[lo..hi], false) == Decode(text[lo..hi], false);
    while i < hi
      invariant lo <= i <= hi
      invariant DecodeOnto(processed, text[i..hi], escaped) == Decode(text[lo..hi], false)
    {
      var ch := text[i];
      assert text[i..hi][0] == ch && text[i..hi][1..] == text[i + 1..hi];
      if ch == '\\' {
        escaped := true;
      } else {
        if escaped {
          processed := processed + Unescaped(ch);
          escaped := false;
        } else {
          processed := processed + [ch];
        }
      }
      i := i + 1;
    }
    assert text[i..hi] == [];
  }

  /** The value a string token's text decodes to. */
  function DecodedValue(v: Variant, text: string): string
  {
    if v == Live then Decode(StripQuotes(text), false) else Decode(text, false)
  }
}
