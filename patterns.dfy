/**
 * The character classes the lexer's transition table is written in. Each
 * pattern is tried with `find()` on a one-character string, so it is a
 * predicate on a single character; the constructors follow the regular
 * expression syntax the patterns are written in.
 */
module Patterns {

  /** A single-character regular expression. */
  datatype Pattern =
    | Range(lo: char, hi: char)          // `x`, `\\+`, `0-9`: one character or a range of them
    | AnyBut(excluded: seq<char>)        // `.` and `(?![..]).`: no line terminator, none of `excluded`
    | Or(left: Pattern, right: Pattern)  // `a|b`, and the alternatives of a class `[..]`

  /** Line terminators, which `.` never matches without DOTALL. */
  predicate IsLineTerminator(c: char)
  {
    c == '\n' || c == '\r' || c == '\U{85}' || c == '\U{2028}' || c == '\U{2029}'
  }

  predicate Matches(p: Pattern, c: char)
  {
    match p
    case Range(lo, hi) => lo <= c <= hi
    case AnyBut(excluded) => !IsLineTerminator(c) && c !in excluded
    case Or(left, right) => Matches(left, c) || Matches(right, c)
  }

  /** A pattern matching exactly one character. */
  function Lit(c: char): Pattern { Range(c, c) }

  // The named patterns of the lexer.
  /** `\\s`: space and the controls \t \n \x0B \f \r, which are contiguous. */
  const WS: Pattern := Or(Range(' ', ' '), Range('\t', '\r'))
  /** `(?!\\n)\\s` */
  const WS_NO_NEWLINE: Pattern := Or(Range(' ', ' '), Or(Range('\t', '\t'), Range('\U{B}', '\r')))
  /** `.|\\n` */
  const ALL: Pattern := Or(AnyBut([]), Range('\n', '\n'))
  /** `\\.` */
  const CHAR_DOT: Pattern := Range('.', '.')
  /** `\\n` */
  const NEWLINE: Pattern := Range('\n', '\n')
  /** `[a-zA-Z0-9_]` */
  const ALPHA_NUM_US: Pattern := Or(Range('a', 'z'), Or(Range('A', 'Z'), Or(Range('0', '9'), Range('_', '_'))))
  /** `[0-9]` */
  const NUMERIC: Pattern := Range('0', '9')
  /** `[Ee]` */
  const SCI_EXP: Pattern := Or(Range('E', 'E'), Range('e', 'e'))
  /** `(?![>-]).|\\n` */
  const NOT_RANGLE_BR: Pattern := Or(AnyBut(['>', '-']), Range('\n', '\n'))
  /** `\"` */
  const DOUBLE_QUOT: Pattern := Range('"', '"')

  /** `[a-zA-Z_]`, the first character of an identifier. */
  const ALPHA_US: Pattern := Or(Range('a', 'z'), Or(Range('A', 'Z'), Range('_', '_')))
  /** `[+-]`, the sign of an exponent. */
  const SIGN: Pattern := Or(Range('+', '+'), Range('-', '-'))
  /** `.` */
  const DOT_ANY: Pattern := AnyBut([])
  /** `(?![\"\\\\]).`, a plain string character. */
  const STRING_CHAR: Pattern := AnyBut(['"', '\\'])
  /** `(?!-).|\\n`, any block-comment character but '-'. */
  const NOT_MINUS: Pattern := Or(AnyBut(['-']), Range('\n', '\n'))

  lemma LitMeaning(x: char, c: char)
    ensures Matches(Lit(x), c) <==> c == x
  {
  }

  lemma NumericMeaning(c: char)
    ensures Matches(NUMERIC, c) <==> '0' <= c <= '9'
  {
  }

  lemma AlphaNumUsMeaning(c: char)
    ensures Matches(ALPHA_NUM_US, c) <==> ('a' <= c <= 'z') || ('A' <= c <= 'Z') || ('0' <= c <= '9') || c == '_'
  {
    var digitsUs := Or(Range('0', '9'), Lit('_'));
    assert Matches(digitsUs, c) <==> ('0' <= c <= '9') || c == '_';
    assert Matches(Or(Range('A', 'Z'), digitsUs), c) <==> ('A' <= c <= 'Z') || Matches(digitsUs, c);
  }

  lemma AlphaUsMeaning(c: char)
    ensures Matches(ALPHA_US, c) <==> ('a' <= c <= 'z') || ('A' <= c <= 'Z') || c == '_'
  {
    assert Matches(Or(Range('A', 'Z'), Range('_', '_')), c) <==> ('A' <= c <= 'Z') || c == '_';
  }

  lemma WsMeaning(c: char)
    ensures Matches(WS, c) <==> c == ' ' || c == '\t' || c == '\n' || c == '\U{B}' || c == '\U{C}' || c == '\r'
  {
  }

  lemma NotRAngleBrMeaning(c: char)
    ensures Matches(NOT_RANGLE_BR, c) <==> c == '\n' || (!IsLineTerminator(c) && c != '>' && c != '-')
  {
  }

  lemma SmallClassesMeaning(c: char)
    ensures Matches(SCI_EXP, c) <==> c == 'E' || c == 'e'
    ensures Matches(DOUBLE_QUOT, c) <==> c == '"'
    ensures Matches(CHAR_DOT, c) <==> c == '.'
    ensures Matches(NEWLINE, c) <==> c == '\n'
  {
  }

  /** '.' matches no line terminator, including a carriage return. */
  lemma DotExcludesLineTerminators(c: char)
    ensures Matches(DOT_ANY, c) <==> !IsLineTerminator(c)
    ensures !Matches(DOT_ANY, '\r') && !Matches(STRING_CHAR, '\r')
  {
  }
}
