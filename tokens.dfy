/**
 * Tokens: a code fixed at construction plus a position, a sequence number and
 * a text, each set through its own setter.
 */
module Tokens {
  import opened TokenCodes
  import opened Exceptions

  class Token {
    const code: TSCode
    var lineNo: int
    var colNo: int
    var seqNo: int
    /** `None` stands for the Java `null` a token holds until `setValue`. */
    var value: Option<string>

    constructor (code: TSCode)
      ensures this.code == code
      ensures lineNo == 0 && colNo == 0 && seqNo == 0 && value == None
    {
      this.code := code;
      lineNo := 0;
      colNo := 0;
      seqNo := 0;
      value := None;
    }

    /** `equals` compares the codes only. */
    predicate Equals(rhs: Token)
    {
      code == rhs.code
    }

    method SetLineNo(n: int)
      modifies this
      ensures lineNo == n && colNo == old(colNo) && seqNo == old(seqNo) && value == old(value)
    {
      lineNo := n;
    }

    method SetColNo(n: int)
      modifies this
      ensures colNo == n && lineNo == old(lineNo) && seqNo == old(seqNo) && value == old(value)
    {
      colNo := n;
    }

    method SetSeqNo(n: int)
      modifies this
      ensures seqNo == n && lineNo == old(lineNo) && colNo == old(colNo) && value == old(value)
    {
      seqNo := n;
    }

    method SetValue(v: string)
      modifies this
      ensures value == Some(v) && lineNo == old(lineNo) && colNo == old(colNo) && seqNo == old(seqNo)
    {
      value := Some(v);
    }

    /** The token as a value, for the pure code that only inspects it. */
    function View(): (v: TokenView)
      reads this
      ensures v.code == code && v.lineNo == lineNo && v.colNo == colNo && v.seqNo == seqNo && v.value == value
    {
      TokenView(code, lineNo, colNo, seqNo, value)
    }
  }

  /** The observable contents of a token. */
  datatype TokenView = TokenView(code: TSCode, lineNo: int, colNo: int, seqNo: int, value: Option<string>)

  /** The shared `NONE` and `UNKNOWN` tokens: their codes, and nothing set. */
  function Sentinel(code: TSCode): (v: TokenView)
    ensures v.code == code && v.value == None && v.lineNo == 0 && v.colNo == 0 && v.seqNo == 0
  {
    TokenView(code, 0, 0, 0, None)
  }

  const NONE_TOKEN: TokenView := Sentinel(TSCode.NONE)
  const UNKNOWN_TOKEN: TokenView := Sentinel(TSCode.UNKNOWN)

  /** `equals` ignores position, sequence number and text: it is an equivalence
      whose classes are exactly the codes. */
  lemma EqualsIsCodeEquality(a: Token, b: Token, c: Token)
    ensures a.Equals(b) <==> a.code == b.code
    ensures a.Equals(a) && (a.Equals(b) ==> b.Equals(a))
    ensures a.Equals(b) && b.Equals(c) ==> a.Equals(c)
  {
  }
}
