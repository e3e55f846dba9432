/**
 * Tokenization state codes: the closed set of codes a lexer state can carry
 * and their serialized names.
 */
module TokenCodes {

  import opened Exceptions

  /** The 35 codes, in declaration order. */
  datatype TSCode =
    | PLUS | MINUS | MULT | DIV | IDENT | EXP | LESS | LESS_EQ | GREATER | GREATER_EQ
    | EQUAL | NOT_EQUAL | ASSIGN | NOT | LPAREN | RPAREN | LBRACE | RBRACE | LBRACKET
    | RBRACKET | AND | OR | DOT | AT | INTEGER | STRING | STRING_PARTIAL | STRING_INVALID
    | COLON | SEMICOLON | COMMA | REAL | UNKNOWN | NONE | COMMENT

  /** Every code, once each, in declaration order. */
  const AllCodes: seq<TSCode> := [
    PLUS, MINUS, MULT, DIV, IDENT, EXP, LESS, LESS_EQ, GREATER, GREATER_EQ,
    EQUAL, NOT_EQUAL, ASSIGN, NOT, LPAREN, RPAREN, LBRACE, RBRACE, LBRACKET,
    RBRACKET, AND, OR, DOT, AT, INTEGER, STRING, STRING_PARTIAL, STRING_INVALID,
    COLON, SEMICOLON, COMMA, REAL, UNKNOWN, NONE, COMMENT]

  /** The lookup table filled once at class load, one entry per code. */
  function Serialize(c: TSCode): string
  {
    match c
    case AND => "AND"
    case ASSIGN => "ASSIGN"
    case AT => "AT"
    case COLON => "COLON"
    case COMMA => "COMMA"
    case COMMENT => "COMMENT"
    case DIV => "DIV"
    case DOT => "DOT"
    case EQUAL => "EQUAL"
    case EXP => "EXP"
    case GREATER => "GREATER"
    case GREATER_EQ => "GREATER_EQ"
    case IDENT => "IDENT"
    case INTEGER => "INTEGER"
    case LBRACE => "LBRACE"
    case LBRACKET => "LBRACKET"
    case LESS => "LESS"
    case LESS_EQ => "LESS_EQ"
    case LPAREN => "LPAREN"
    case MINUS => "MINUS"
    case MULT => "MULT"
    case NONE => "NONE"
    case NOT => "NOT"
    case NOT_EQUAL => "NOT_EQUAL"
    case OR => "OR"
    case PLUS => "PLUS"
    case RBRACE => "RBRACE"
    case RBRACKET => "RBRACKET"
    case REAL => "REAL"
    case RPAREN => "RPAREN"
    case SEMICOLON => "SEMICOLON"
    case STRING => "STRING"
    case STRING_INVALID => "STRING_INVALID"
    case STRING_PARTIAL => "STRING_PARTIAL"
    case UNKNOWN => "UNKNOWN"
  }

  /** Reference inverse of `Serialize`: the code whose name is `s`, if any. The
      names are looked up by length first. */
  function NamedCode(s: string): Option<TSCode>
  {
    match |s|
    case 2 => if s == "OR" then Some(OR) else if s == "AT" then Some(AT) else None
    case 3 => if s == "DIV" then Some(DIV) else if s == "EXP" then Some(EXP) else if s == "NOT" then Some(NOT) else if s == "AND" then Some(AND) else if s == "DOT" then Some(DOT) else None
    case 4 => if s == "PLUS" then Some(PLUS) else if s == "MULT" then Some(MULT) else if s == "LESS" then Some(LESS) else if s == "REAL" then Some(REAL) else if s == "NONE" then Some(NONE) else None
    case 5 => if s == "MINUS" then Some(MINUS) else if s == "IDENT" then Some(IDENT) else if s == "EQUAL" then Some(EQUAL) else if s == "COLON" then Some(COLON) else if s == "COMMA" then Some(COMMA) else None
    case 6 => if s == "ASSIGN" then Some(ASSIGN) else if s == "LPAREN" then Some(LPAREN) else if s == "RPAREN" then Some(RPAREN) else if s == "LBRACE" then Some(LBRACE) else if s == "RBRACE" then Some(RBRACE) else if s == "STRING" then Some(STRING) else None
    case 7 => if s == "LESS_EQ" then Some(LESS_EQ) else if s == "GREATER" then Some(GREATER) else if s == "INTEGER" then Some(INTEGER) else if s == "UNKNOWN" then Some(UNKNOWN) else if s == "COMMENT" then Some(COMMENT) else None
    case 8 => if s == "LBRACKET" then Some(LBRACKET) else if s == "RBRACKET" then Some(RBRACKET) else None
    case 9 => if s == "NOT_EQUAL" then Some(NOT_EQUAL) else if s == "SEMICOLON" then Some(SEMICOLON) else None
    case 10 => if s == "GREATER_EQ" then Some(GREATER_EQ) else None
    case 14 => if s == "STRING_PARTIAL" then Some(STRING_PARTIAL) else if s == "STRING_INVALID" then Some(STRING_INVALID) else None
    case _ => None
  }

  /** The code set is closed: `AllCodes` lists 35 codes and contains every code. */
  lemma CodesClosed(c: TSCode)
    ensures |AllCodes| == 35 && c in AllCodes
  {
  }

  /** `serialize` is total and injective: every name is non-empty and parses back
      to its code, so no two codes share a name. */
  lemma SerializeRoundTrip(c: TSCode)
    ensures Serialize(c) != []
    ensures NamedCode(Serialize(c)) == Some(c)
  {
    match c
    case PLUS =>
    case MINUS =>
    case MULT =>
    case DIV =>
    case IDENT =>
    case EXP =>
    case LESS =>
    case LESS_EQ =>
    case GREATER =>
    case GREATER_EQ =>
    case EQUAL =>
    case NOT_EQUAL =>
    case ASSIGN =>
    case NOT =>
    case LPAREN =>
    case RPAREN =>
    case LBRACE =>
    case RBRACE =>
    case LBRACKET =>
    case RBRACKET =>
    case AND =>
    case OR =>
    case DOT =>
    case AT =>
    case INTEGER =>
    case STRING =>
    case STRING_PARTIAL =>
    case STRING_INVALID =>
    case COLON =>
    case SEMICOLON =>
    case COMMA =>
    case REAL =>
    case UNKNOWN =>
    case NONE =>
    case COMMENT =>
  }

  lemma SerializeInjective(a: TSCode, b: TSCode)
    ensures Serialize(a) == Serialize(b) ==> a == b
  {
    SerializeRoundTrip(a);
    SerializeRoundTrip(b);
  }
}
