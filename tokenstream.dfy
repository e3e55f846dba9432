/**
 * The token buffer between the analyzer and the parser: a list of tokens read
 * so far, a cursor into it, an end-of-stream flag and one pinned token that
 * eviction spares. Tokens are compared by identity throughout.
 */
module TokenStreams {
  import opened TokenCodes
  import opened Tokens
  import opened Exceptions
  import opened Analyzers
  import Lexer

  /** The length from which a fetch evicts the oldest token. */
  const BUFFER_SIZE := 5

  /** The eviction a fetch performs before adding the new token: from a buffer
      of `BUFFER_SIZE` tokens or more, the oldest goes unless it is the marked
      one, and a second one when that leaves more than `BUFFER_SIZE`; a marked
      oldest token makes the buffer grow instead, and moves the cursor on. */
  function Evict(buffer: seq<Token>, index: int, marked: Token?): (seq<Token>, int)
  {
    if |buffer| < BUFFER_SIZE then (buffer, index)
    else if buffer[0] != marked then
      var rest := buffer[1..];
      if |rest| > BUFFER_SIZE && rest[0] != marked then (rest[1..], index - 1) else (rest, index)
    else (buffer, index + 1)
  }

  /** The cursor after adding a token: it moves on only while below `BUFFER_SIZE`. */
  function Bump(index: int): int
  {
    if index < BUFFER_SIZE then index + 1 else index
  }

  /** The last position at or before `hi` that holds `t`, or -1. */
  function LastBefore(buffer: seq<Token>, t: Token, hi: int): (k: int)
    requires -1 <= hi < |buffer|
    ensures -1 <= k <= hi
    ensures k >= 0 ==> buffer[k] == t
    ensures forall j :: k < j <= hi && 0 <= j ==> buffer[j] != t
    decreases hi + 1
  {
    if hi < 0 then -1
    else if buffer[hi] == t then hi
    else LastBefore(buffer, t, hi - 1)
  }

  /** In a buffer free of duplicates the backward search finds a token at its
      one position, and finds nothing for a token that is not at or before
      `hi`. */
  lemma {:induction false} LastBeforeFinds(buffer: seq<Token>, t: Token, hi: int)
    requires -1 <= hi < |buffer| && Distinct(buffer)
    ensures LastBefore(buffer, t, hi) >= 0 <==> t in buffer[..hi + 1]
    ensures forall i :: 0 <= i <= hi && buffer[i] == t ==> LastBefore(buffer, t, hi) == i
  {
    if hi >= 0 && buffer[hi] != t {
      LastBeforeFinds(buffer, t, hi - 1);
      assert buffer[..hi + 1] == buffer[..hi] + [buffer[hi]];
    }
  }

  /** No token is buffered twice. */
  ghost predicate Distinct(buffer: seq<Token>)
  {
    forall i, j :: 0 <= i < j < |buffer| ==> buffer[i] != buffer[j]
  }

  /** Eviction drops the one or two oldest tokens, never the marked one, and
      keeps the rest in order. */
  lemma EvictDropsOldest(buffer: seq<Token>, index: int, marked: Token?)
    ensures var (b, _) := Evict(buffer, index, marked);
      exists k :: 0 <= k <= 2 && k <= |buffer| && b == buffer[k..] && marked !in buffer[..k]
  {
    var (b, _) := Evict(buffer, index, marked);
    if |buffer| < BUFFER_SIZE || buffer[0] == marked {
      assert b == buffer[0..];
    } else if b == buffer[1..] {
      assert buffer[..1] == [buffer[0]];
    } else {
      assert buffer[..2] == [buffer[0], buffer[1]];
      assert b == buffer[2..];
    }
  }

  /** Eviction keeps the buffer free of duplicates and keeps the marked token. */
  lemma EvictKeepsValid(buffer: seq<Token>, index: int, marked: Token?)
    requires Distinct(buffer) && (marked != null ==> marked in buffer)
    ensures var b := Evict(buffer, index, marked).0;
      Distinct(b) && (marked != null ==> marked in b)
      && forall t :: t in b ==> t in buffer
  {
    EvictDropsOldest(buffer, index, marked);
    var b := Evict(buffer, index, marked).0;
    var k :| 0 <= k <= 2 && k <= |buffer| && b == buffer[k..] && marked !in buffer[..k];
    if marked != null {
      assert buffer == buffer[..k] + b;
    }
  }

  /** Appending a token not yet buffered keeps the buffer free of duplicates. */
  lemma DistinctAppend(buffer: seq<Token>, t: Token)
    requires Distinct(buffer) && t !in buffer
    ensures Distinct(buffer + [t])
  {
  }

  /** A fetch at the end of the buffer leaves the cursor just past the token it
      adds; when the analyzer has nothing more, a buffer of `BUFFER_SIZE` tokens
      or more is left with the cursor one past its end. */
  lemma FetchCursor(buffer: seq<Token>, marked: Token?)
    ensures var (b, i) := Evict(buffer, |buffer|, marked);
      Bump(i) == |b| + 1
      && i == (if |buffer| < BUFFER_SIZE then |b| else |b| + 1)
  {
  }

  /** With no token marked, a fetch never leaves more than `BUFFER_SIZE` + 1
      tokens unless it started with more, and then it shrinks the buffer. */
  lemma UnmarkedFetchShrinks(buffer: seq<Token>, index: int)
    ensures var n := |Evict(buffer, index, null).0| + 1;
      n <= BUFFER_SIZE + 1 || n < |buffer|
  {
  }

  /** With the oldest token marked, a buffer of `BUFFER_SIZE` or more grows by the
      fetched token. */
  lemma MarkedFetchGrows(buffer: seq<Token>, index: int, marked: Token?)
    requires |buffer| >= BUFFER_SIZE && buffer[0] == marked
    ensures Evict(buffer, index, marked) == (buffer, index + 1)
  {
  }

  /** The buffer and cursor after `read` fetches each of `toks` in turn, at the
      end of the buffer, with `marked` marked. */
  function FetchAll(buffer: seq<Token>, index: int, marked: Token?, toks: seq<Token>): (seq<Token>, int)
    decreases |toks|
  {
    if toks == [] then (buffer, index)
    else
      var (b, i) := Evict(buffer, index, marked);
      FetchAll(b + [toks[0]], Bump(i), marked, toks[1..])
  }

  /** Where `rewind` starts its backward search: the cursor, or one before it
      when it is not behind the last buffered token. */
  function RewindStart(buffer: seq<Token>, index: int): int
  {
    if index < |buffer| then index else index - 1
  }

  /** With the oldest token marked and the cursor at the end, fetching keeps
      every token and leaves the cursor at the end. */
  lemma {:induction false} MarkedFetchesKeepAll(buffer: seq<Token>, marked: Token?, toks: seq<Token>)
    requires buffer != [] && buffer[0] == marked
    ensures FetchAll(buffer, |buffer|, marked, toks) == (buffer + toks, |buffer| + |toks|)
    decreases |toks|
  {
    if toks == [] {
      assert buffer + toks == buffer;
    } else {
      if |buffer| >= BUFFER_SIZE {
        MarkedFetchGrows(buffer, |buffer|, marked);
      }
      MarkedFetchesKeepAll(buffer + [toks[0]], marked, toks[1..]);
      assert buffer + [toks[0]] + toks[1..] == buffer + toks;
    }
  }

  /** The command line's scan on a cleared stream: it reads the first token of
      `line`, marks it, and reads on until the analyzer answers NONE. Every
      token stays buffered, and the closing fetch leaves the cursor where the
      `rewind` that follows starts its search at the end of the buffer, and so
      reads past it, exactly when the line has `BUFFER_SIZE` tokens or more. */
  lemma CommandLineScan(line: seq<Token>)
    requires line != []
    ensures var (b0, i0) := FetchAll([], 0, null, [line[0]]);
      var (b, i) := FetchAll(b0, i0, line[0], line[1..]);
      var start := RewindStart(b, Evict(b, i, line[0]).1);
      && b == line
      && (|line| >= BUFFER_SIZE ==> start == |b|)
      && (|line| < BUFFER_SIZE ==> start == |b| - 1)
  {
    FirstFetch(line);
    MarkedFetchesKeepAll([line[0]], line[0], line[1..]);
    if |line| >= BUFFER_SIZE {
      MarkedFetchGrows(line, |line|, line[0]);
    }
  }

  /** The first fetch on a cleared stream buffers the token and moves the
      cursor past it. */
  lemma FirstFetch(line: seq<Token>)
    requires line != []
    ensures FetchAll([], 0, null, [line[0]]) == ([line[0]], 1)
    ensures [line[0]] + line[1..] == line
  {
    assert Evict([], 0, null) == ([], 0);
    assert [] + [line[0]] == [line[0]] && [line[0]][1..] == [];
  }

  class BufferedTokenStream {
    const analyzer: Analyzer
    var buffer: seq<Token>
    var index: int
    var eos: bool
    var marked: Token?

    /** The cursor stays within one past the end, and only at end of stream
        goes past it; it drops to -1 only on an empty buffer (a failed `rewind`
        leaves it there); the marked token is buffered; no token is buffered
        twice. */
    ghost predicate Valid()
      reads this, analyzer, analyzer.machine
    {
      && analyzer.Valid()
      && -1 <= index <= |buffer| + 1
      && (index == |buffer| + 1 ==> eos)
      && (index == -1 ==> buffer == [])
      && (marked != null ==> marked in buffer)
      && Distinct(buffer)
    }

    constructor (analyzer: Analyzer)
      requires analyzer.Valid()
      ensures Valid() && this.analyzer == analyzer
      ensures buffer == [] && index == 0 && !eos && marked == null
    {
      this.analyzer := analyzer;
      buffer := [];
      index := 0;
      eos := false;
      marked := null;
    }

    /** `read`: null at end of stream; the token at the cursor when the cursor is
        behind the end (a cursor of -1 fails in `get`, after moving to 0);
        otherwise the analyzer's next token, `fetched`, buffered after an
        eviction. A token read sits just before the cursor. */
    method Read() returns (r: Try<Token?>, ghost fetched: Result)
      requires Valid()
      modifies this, analyzer, analyzer.machine
      ensures Valid()
      ensures old(eos) ==> r == Ok(null) && unchanged(this, analyzer, analyzer.machine)
      ensures r.Ok? && r.value != null ==> 0 < index <= |buffer| && buffer[index - 1] == r.value
      ensures !old(eos) && old(index) == -1 ==>
        r == Thrown(IndexOutOfBounds(-1)) && index == 0
        && buffer == old(buffer) && eos == old(eos) && marked == old(marked)
        && unchanged(analyzer, analyzer.machine)
      ensures !old(eos) && 0 <= old(index) < old(|buffer|) ==>
        && r.Ok? && r.value == old(buffer[index]) && index == old(index) + 1
        && buffer == old(buffer) && eos == old(eos) && marked == old(marked)
        && unchanged(analyzer, analyzer.machine)
      ensures !old(eos) && old(index) >= old(|buffer|) ==> marked == old(marked) && Answered(old(analyzer.initialized), old(analyzer.State()), old(buffer), old(index), r, fetched)
    {
      fetched := ReturnedNone;
      if eos {
        return Ok(null), fetched;
      }
      if index != |buffer| {
        if index < 0 {
          index := index + 1;
          return Thrown(IndexOutOfBounds(-1)), fetched;
        }
        r := Ok(buffer[index]);
        index := index + 1;
        return;
      }
      r, fetched := Fetch();
    }

    /** The analyzer's next token, and what the buffer does with it. */
    method Fetch() returns (r: Try<Token?>, ghost fetched: Result)
      requires Valid() && !eos && index == |buffer|
      modifies this, analyzer, analyzer.machine
      ensures Valid() && marked == old(marked)
      ensures Answered(old(analyzer.initialized), old(analyzer.State()), old(buffer), old(index), r, fetched)
    {
      var answer := analyzer.GetNextToken();
      fetched := answer;
      r := Admit(answer);
    }

    /** After a fetch from the analyzer state `a0`: the analyzer answered `fetched`
        as `getNextToken` describes, and the buffer took it in. */
    ghost predicate Answered(initialized: bool, a0: Lexer.Scan, b0: seq<Token>, i0: int, r: Try<Token?>, fetched: Result)
      reads this, analyzer, analyzer.machine, if fetched.Returned? then {fetched.token} else {}
      requires analyzer.Valid() && a0.Good()
    {
      && analyzer.initialized == initialized
      && (!initialized ==> fetched == Failed(Lexer.NOT_INITIALIZED))
      && (initialized ==>
            Reports(fetched, Lexer.NextToken(analyzer.variant, a0).0)
            && analyzer.State() == Lexer.NextToken(analyzer.variant, a0).1.(text := [], rc := TSCode.NONE))
      && Admitted(fetched, b0, i0, r)
    }

    /** The rest of a fetch, once the analyzer has answered `fetched`: an
        IOException ends the stream, any other exception passes through, and a
        result evicts, then buffers the new token or, for a NONE-coded one, ends
        the stream. */
    method Admit(fetched: Result) returns (r: Try<Token?>)
      requires Valid() && !eos && index == |buffer|
      requires fetched.Returned? ==> fetched.token !in buffer
      modifies this
      ensures Valid() && marked == old(marked)
      ensures Admitted(fetched, old(buffer), old(index), r)
    {
      if fetched.Failed? && fetched.e.IOException? {
        eos := true;
        return Ok(null);
      }
      if fetched.Failed? {
        return Thrown(fetched.e);
      }
      ghost var b0 := buffer;
      MakeRoom();
      FetchCursor(b0, marked);
      var t := if fetched.Returned? then fetched.token else null;
      if t != null && t.code != TSCode.NONE {
        DistinctAppend(buffer, t);
        buffer := buffer + [t];
        index := Bump(index);
        r := Ok(t);
      } else {
        eos := true;
        r := Ok(null);
      }
    }

    /** `unread(t)`: steps the cursor back when `t` is the token just before it.
        The lookup fails when there is no such position. */
    method Unread(putback: Token) returns (r: Try<bool>)
      requires Valid()
      modifies this
      ensures Valid() && buffer == old(buffer) && eos == old(eos) && marked == old(marked)
      ensures !(0 < old(index) <= |buffer|) ==> r == Thrown(IndexOutOfBounds(old(index) - 1)) && index == old(index)
      ensures 0 < old(index) <= |buffer| ==>
        (if buffer[old(index) - 1] == putback then r == Ok(true) && index == old(index) - 1
         else r == Ok(false) && index == old(index))
      ensures r == Ok(true) ==> 0 <= index < |buffer| && buffer[index] == putback
    {
      if !(0 < index <= |buffer|) {
        return Thrown(IndexOutOfBounds(index - 1));
      }
      if buffer[index - 1] != putback {
        return Ok(false);
      }
      index := index - 1;
      return Ok(true);
    }

    /** `rewind(t)`: from the cursor, or from the position before it when the
        cursor is at or past the end (a move that stays even when the call
        fails), search backwards for `t`; found, the cursor moves there and the
        stream is open again. The search never answers false: when `t` is not
        found it reads position -1 and fails. */
    method Rewind(mark: Token) returns (r: Try<bool>)
      requires Valid()
      modifies this
      ensures Valid() && buffer == old(buffer) && marked == old(marked)
      ensures var start := RewindStart(buffer, old(index));
        if start >= |buffer| then r == Thrown(IndexOutOfBounds(start)) && index == start && eos == old(eos)
        else
          var k := LastBefore(buffer, mark, start);
          if k < 0 then r == Thrown(IndexOutOfBounds(-1)) && index == start && eos == old(eos)
          else r == Ok(true) && index == k && !eos
      ensures r != Ok(false)
      ensures r == Ok(true) ==> 0 <= index < |buffer| && buffer[index] == mark
    {
      var cur;
      if index < |buffer| {
        cur := index;
      } else {
        index := index - 1;
        cur := index;
      }
      if cur >= |buffer| {
        return Thrown(IndexOutOfBounds(cur));
      }
      while cur >= 0 && buffer[cur] != mark
        invariant -1 <= cur < |buffer|
        invariant LastBefore(buffer, mark, cur) == LastBefore(buffer, mark, index)
        decreases cur
      {
        cur := cur - 1;
      }
      if cur < 0 {
        return Thrown(IndexOutOfBounds(-1));
      }
      index := cur;
      eos := false;
      return Ok(true);
    }

    /** `atEOS`. */
    predicate AtEOS()
      reads this
    {
      eos
    }

    /** `mark(t)`: pins `t` when it is buffered; otherwise nothing changes. */
    method Mark(marker: Token) returns (found: bool)
      requires Valid()
      modifies this
      ensures Valid() && buffer == old(buffer) && index == old(index) && eos == old(eos)
      ensures found <==> marker in buffer
      ensures marked == if found then marker else old(marked)
    {
      for i := 0 to |buffer|
        invariant marker !in buffer[..i]
      {
        if buffer[i] == marker {
          marked := marker;
          return true;
        }
      }
      assert buffer[..|buffer|] == buffer;
      return false;
    }

    /** `unmark`. */
    method Unmark()
      requires Valid()
      modifies this
      ensures Valid() && marked == null
      ensures buffer == old(buffer) && index == old(index) && eos == old(eos)
    {
      marked := null;
    }

    /** `clear`: an empty buffer, the cursor at 0, the stream open, no mark. */
    method Clear()
      requires Valid()
      modifies this
      ensures Valid() && buffer == [] && index == 0 && !eos && marked == null
    {
      buffer := [];
      index := 0;
      eos := false;
      marked := null;
    }

    /** The eviction of a fetch, in place. */
    method MakeRoom()
      requires Valid() && index == |buffer|
      modifies this
      ensures (buffer, index) == Evict(old(buffer), old(index), marked)
      ensures 0 <= index <= |buffer| + 1 && Distinct(buffer) && (marked != null ==> marked in buffer)
      ensures marked == old(marked) && eos == old(eos)
      ensures forall t :: t in buffer ==> t in old(buffer)
    {
      ghost var b0 := buffer;
      if |buffer| >= BUFFER_SIZE {
        if buffer[0] != marked {
          buffer := buffer[1..];
          if |buffer| > BUFFER_SIZE && buffer[0] != marked {
            buffer := buffer[1..];
            index := index - 1;
          }
        } else {
          index := index + 1;
        }
      }
      EvictKeepsValid(b0, old(index), marked);
    }

    /** What a fetch leaves after the analyzer answered `fetched`: the stream
        ended (an IOException, or a NONE-coded result after the eviction), an
        exception passed on with the buffer untouched, or the new token buffered
        after the eviction with the cursor just past it. */
    ghost predicate Admitted(fetched: Result, b0: seq<Token>, i0: int, r: Try<Token?>)
      reads this, if fetched.Returned? then {fetched.token} else {}
    {
      var (b, i) := Evict(b0, i0, marked);
      match fetched
      case Failed(e) =>
        buffer == b0 && index == i0
        && (if e.IOException? then r == Ok(null) && eos else r == Thrown(e) && !eos)
      case ReturnedNone => r == Ok(null) && eos && buffer == b && index == i
      case Returned(t) =>
        if t.code == TSCode.NONE then r == Ok(null) && eos && buffer == b && index == i
        else r == Ok(t as Token?) && !eos && buffer == b + [t] && index == Bump(i) && index == |buffer|
    }
  }
}
