/**
 * Error messages of the parser: a level, an error type, the token's position
 * and value when there is a token, and the message, in one line ending in a
 * period (the legacy form puts the value after the period).
 */
module CompilerErrors {
  import opened TokenCodes
  import opened Tokens
  import opened Exceptions
  import JavaInt

  datatype Level = ERROR | WARNING

  datatype ErrType = ARITHMETIC | BOOLEAN | FUNCTION_CALL | SYMBOL_REF | ASSIGNMENT | COMP_U | ILLEGAL_EXPR

  datatype ErrMessage =
    | INVALID_NUMERIC | MISSING_BIN_RHO | MISSING_UNARY_RHO | UNEXPECTED_ARITH_TOKEN
    | UNEXPECTED_KEYWORD | UNMATCHED_LPAREN | UNMATCHED_RPAREN | UNKNOWN_TYPE
    | RESERVED_KEYWORD | MISSING_LPAREN | MISSING_RPAREN | TYPE_MISMATCH
    | METHOD_ARGUMENT | UNDEFINED_SYMBOL

  /** The legacy messages: the live set without UNEXPECTED_KEYWORD, and with
      UNEXPECTED_TOKEN for UNEXPECTED_ARITH_TOKEN. */
  datatype LegacyErrMessage =
    | L_INVALID_NUMERIC | L_MISSING_BIN_RHO | L_MISSING_UNARY_RHO | L_UNEXPECTED_TOKEN
    | L_UNMATCHED_LPAREN | L_UNMATCHED_RPAREN | L_UNKNOWN_TYPE | L_RESERVED_KEYWORD
    | L_MISSING_LPAREN | L_MISSING_RPAREN | L_TYPE_MISMATCH | L_METHOD_ARGUMENT
    | L_UNDEFINED_SYMBOL

  function LevelLabel(l: Level): string
  {
    match l
    case ERROR => "Error"
    case WARNING => "Warning"
  }

  function TypeLabel(t: ErrType): string
  {
    match t
    case ARITHMETIC => "Arithmetic"
    case BOOLEAN => "Boolean"
    case FUNCTION_CALL => "Method reference"
    case SYMBOL_REF => "Symbol reference"
    case ASSIGNMENT => "Assignment"
    case COMP_U => "Input"
    case ILLEGAL_EXPR => "Illegal expression"
  }

  function MessageLabel(m: ErrMessage): string
  {
    match m
    case INVALID_NUMERIC => "Numeric operand out of sequence"
    case MISSING_BIN_RHO => "Missing right-hand operand for binary operator"
    case MISSING_UNARY_RHO => "Missing right-hand operand for unary operator"
    case UNEXPECTED_ARITH_TOKEN => "Unexpected/out-of-sequence arithmetic keyword/operator"
    case UNEXPECTED_KEYWORD => "Unexpected symbol/keyword"
    case UNMATCHED_LPAREN => "Unmatched left parenthesis"
    case UNMATCHED_RPAREN => "Unmatched right parenthesis"
    case UNKNOWN_TYPE => "Unable to deduce type from right-hand expression"
    case RESERVED_KEYWORD => "Illegal use of reserved keyword"
    case MISSING_LPAREN => "Expected left parenthesis to follow method name"
    case MISSING_RPAREN => "Expected right parenthesis to follow method list of method arguments"
    case TYPE_MISMATCH => "Unable to convert between types"
    case METHOD_ARGUMENT => "Unable to evaluate method argument"
    case UNDEFINED_SYMBOL => "Unrecognized variable name"
  }

  function LegacyMessageLabel(m: LegacyErrMessage): string
  {
    match m
    case L_INVALID_NUMERIC => MessageLabel(INVALID_NUMERIC)
    case L_MISSING_BIN_RHO => MessageLabel(MISSING_BIN_RHO)
    case L_MISSING_UNARY_RHO => MessageLabel(MISSING_UNARY_RHO)
    case L_UNEXPECTED_TOKEN => MessageLabel(UNEXPECTED_ARITH_TOKEN)
    case L_UNMATCHED_LPAREN => MessageLabel(UNMATCHED_LPAREN)
    case L_UNMATCHED_RPAREN => MessageLabel(UNMATCHED_RPAREN)
    case L_UNKNOWN_TYPE => MessageLabel(UNKNOWN_TYPE)
    case L_RESERVED_KEYWORD => MessageLabel(RESERVED_KEYWORD)
    case L_MISSING_LPAREN => MessageLabel(MISSING_LPAREN)
    case L_MISSING_RPAREN => MessageLabel(MISSING_RPAREN)
    case L_TYPE_MISMATCH => MessageLabel(TYPE_MISMATCH)
    case L_METHOD_ARGUMENT => MessageLabel(METHOD_ARGUMENT)
    case L_UNDEFINED_SYMBOL => MessageLabel(UNDEFINED_SYMBOL)
  }

  /** `String.valueOf` of a token value: the text, or "null". */
  function ValueText(value: Option<string>): string
  {
    if value.Some? then value.value else "null"
  }

  /** `replace("\n", "\\n")`: every newline becomes a backslash and an 'n'. */
  function EscapeNewlines(s: string): (r: string)
    ensures '\n' !in r
    ensures |r| == |s| + Newlines(s)
    ensures '\n' !in s ==> r == s
  {
    if s == [] then []
    else (if s[0] == '\n' then "\\n" else [s[0]]) + EscapeNewlines(s[1..])
  }

  /** The number of newlines in `s`. */
  function Newlines(s: string): nat
  {
    if s == [] then 0 else (if s[0] == '\n' then 1 else 0) + Newlines(s[1..])
  }

  /** The token's part of a live message: its value in parentheses, a STRING
      quoted with its newlines escaped; a STRING without a value fails. */
  function ValuePart(t: TokenView): Try<string>
  {
    if t.code == STRING then
      if t.value.None? then Thrown(NullPointer)
      else Ok(" (\"" + EscapeNewlines(t.value.value) + "\")")
    else Ok(" (" + ValueText(t.value) + ")")
  }

  /** The live `format`: level, error type, the token's position when there is
      a token, the message, the token's value when there is a token whose code
      is not NONE, and a closing period. Only a STRING token without a value
      fails. */
  function Format(token: Option<TokenView>, level: Level, errType: ErrType, message: string): (r: Try<string>)
    ensures r.Thrown? <==> token.Some? && token.value.code == STRING && token.value.value.None?
  {
    var value := if token.Some? && token.value.code != NONE then ValuePart(token.value) else Ok("");
    match value
    case Thrown(e) => Thrown(e)
    case Ok(v) => Ok(Head(level, errType) + Tail(Position(token) + ": " + message + v))
  }

  /** " [line:col]" for a token, nothing without one. */
  function Position(token: Option<TokenView>): string
  {
    if token.Some? then " [" + Decimal(token.value.lineNo) + ":" + Decimal(token.value.colNo) + "]" else ""
  }

  /** A message body with its closing period. */
  function Tail(body: string): (r: string)
    ensures |r| == |body| + 1 && r[|body|] == '.'
  {
    body + "."
  }

  /** Every message that is formatted starts with the level and the error type
      and ends in a period. */
  lemma FormatShape(token: Option<TokenView>, level: Level, errType: ErrType, message: string)
    requires Format(token, level, errType, message).Ok?
    ensures var line := Format(token, level, errType, message).value;
      Head(level, errType) <= line && line[|line| - 1] == '.'
  {
    var line := Format(token, level, errType, message).value;
    var head := Head(level, errType);
    assert line[..|head|] == head;
  }

  /** Without a token the message is the head, the message and a period. */
  lemma FormatWithoutToken(level: Level, errType: ErrType, message: string)
    ensures Format(None, level, errType, message) == Ok(Head(level, errType) + Tail(": " + message))
  {
    assert Position(None) + ": " + message + "" == ": " + message;
  }

  /** A token whose code is NONE adds its position and no value. */
  lemma FormatNoneToken(t: TokenView, level: Level, errType: ErrType, message: string)
    requires t.code == NONE
    ensures Format(Some(t), level, errType, message)
      == Ok(Head(level, errType) + Tail(Position(Some(t)) + ": " + message))
  {
    assert Position(Some(t)) + ": " + message + "" == Position(Some(t)) + ": " + message;
  }

  /** Any other token adds its value, in parentheses, after the message. */
  lemma FormatValueToken(t: TokenView, level: Level, errType: ErrType, message: string)
    requires t.code != NONE && t.code != STRING
    ensures Format(Some(t), level, errType, message)
      == Ok(Head(level, errType) + Tail(Position(Some(t)) + ": " + message + " (" + ValueText(t.value) + ")"))
  {
    var body := Position(Some(t)) + ": " + message;
    assert body + (" (" + ValueText(t.value) + ")") == body + " (" + ValueText(t.value) + ")";
  }

  /** "<Level>:Type=<ErrType>". */
  function Head(level: Level, errType: ErrType): string
  {
    LevelLabel(level) + ":Type=" + TypeLabel(errType)
  }

  function Decimal(n: int): string
  {
    JavaInt.DecimalString(n)
  }

  /** `formatErrorMessage` with a message constant formats its label. */
  function FormatMessage(token: Option<TokenView>, level: Level, errType: ErrType, message: ErrMessage): (r: Try<string>)
    ensures r == Format(token, level, errType, MessageLabel(message))
  {
    Format(token, level, errType, MessageLabel(message))
  }

  /** The legacy `formatErrorMessage`: the token is required (a null one fails on
      its position), and its value, for a code other than NONE, comes after the
      period, unquoted. */
  function LegacyFormat(token: Option<TokenView>, level: Level, errType: ErrType, message: string): (r: Try<string>)
    ensures r.Thrown? <==> token.None?
  {
    if token.None? then Thrown(NullPointer)
    else
      var t := token.value;
      var line := Head(level, errType) + Tail(Position(token) + ": " + message);
      Ok(if t.code != NONE then line + " (" + ValueText(t.value) + ")" else line)
  }

  /** A legacy message starts with the level and the error type, has the period
      right after the message, and ends there unless a value follows it. */
  lemma LegacyFormatShape(t: TokenView, level: Level, errType: ErrType, message: string)
    ensures var line := LegacyFormat(Some(t), level, errType, message).value;
      var head := Head(level, errType);
      var n := |head + Position(Some(t)) + ": " + message|;
      && head <= line && n < |line| && line[n] == '.'
      && (t.code == NONE <==> |line| == n + 1)
  {
    var line := LegacyFormat(Some(t), level, errType, message).value;
    var head := Head(level, errType);
    assert line[..|head|] == head;
  }
}
