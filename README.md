# labomath core in Dafny

A model of the scripting toolchain at the heart of labomath. A table-driven
lexer turns characters into tokens. A buffered token stream gives the
recursive-descent parser its lookahead and backtracking. The parser consults
the symbol table and builds a tree of code-generation nodes. An instruction
builder lays the nodes' code out in segments, and a register machine runs the
result against static variable storage and a text console.

The repository carries two editions of most of this, the live one (packages
`Lexical`, `Parsing`, `Runtime`) and an older one (package `CSCI502.Project`).
Both are modelled. Where the two share a shape they are one definition that
branches on the edition (`Lexer.Variant`, `Parsers.Edition`); where they differ
in kind they are separate members (`LegacyMachines`, `LegacySymbolTable`,
`LegacyInstructionBuilder`).

Each source file keeps its own form. Objects whose fields change become
classes whose methods are proved against functions: `StateMachine`,
`Analyzer`, `Token`, `BufferedTokenStream`, `SymbolTable`, `StaticMemory`,
`VHdwStack`, `VStack`, `CNode`, `InstructionBuilder`, both `VirtualMachine`s
and the `Parser`. The grammar, code generation and instruction semantics are
functions on values, with lemmas about them. Java exceptions are outcome values
(`Try`, `Outcome`, `Raised`), never preconditions, and Java's 32-bit `int`
arithmetic is written out (`JavaInt.Wrap`, truncating `/` and `%`).

The model reproduces what the code does, including where that differs from
what its comments suggest:

- The legacy `consumeListSeparator` answers false even after consuming a
  comma. The legacy `print` loop therefore never sees a separator, its check
  for a missing one never fires, and it takes its arguments with or without
  commas between them (`Parsers.Separator`, `Parsers.MissingSeparator`).
- `assignment` rewinds the stream when no `<-` follows, but the variable its
  `lvalue` registered stays registered. A statement made of a never-assigned
  name is therefore accepted (`ParserProperties.RewoundAssignmentRegisters`,
  `ParserProperties.UnassignedNameAccepted`).
- The legacy statement-block recovery discards the statement before it sets
  the failed flag. A discard that hits the end of input throws a
  RuntimeException, which leaves the block with the flag still clear
  (`Parsers.Recover`).
- In the live machine a taken jump never completes: the case falls through to
  SETL or PRNT, whose register cast fails on the jump's int offset. NEG falls
  into SAR, the shifts fail casting their count to a byte, and CMP, TEST and
  the bitwise operations fall into the jumps. Every instruction that does
  complete moves IP to the next address (`Machines.ExecAdvances`).
- In the legacy machine MOVE between registers falls into the immediate case
  and loads the source register's name, and PUSH falls through POP into PRINT,
  so its whole effect is a print (`LegacyMachines.MoveRegisterLoadsName`,
  `LegacyMachines.PushIsPrint`).
- The live `commandLine` marks its first token and reads to the end of the
  line, so every token stays buffered. On a line of five tokens or more the
  closing fetch of NONE leaves the stream's cursor one past the buffer, and
  the `rewind` that follows reads that position and throws
  IndexOutOfBoundsException. Only ParseExceptions are caught, so the
  exception leaves `commandLine`, and only lines of one to four tokens reach
  their statement (`TokenStreams.CommandLineScan`,
  `ParserProperties.CommandLineOverruns`).

## Model

| member | source | states |
|---|---|---|
| TokenCodes.CodesClosed | src/CSCI502/Project/Lexical/TSCode.java:12-16 | the enumeration has exactly the 35 token state codes and every code is among them |
| TokenCodes.SerializeRoundTrip | src/CSCI502/Project/Lexical/TSCode.java:18-64 | `serialize` maps every code to a non-empty name, and reading that name back gives the same code (the table has an entry for all 35 codes) |
| TokenCodes.SerializeInjective | src/CSCI502/Project/Lexical/TSCode.java:18-64 | no two codes serialize to the same name |
| Tokens.Token.constructor | src/Lexical/Token.java:23-26 | a new token has the given code, zero line, column and sequence numbers, and no value |
| Tokens.Token.SetLineNo | src/Lexical/Token.java:46 | sets the line number and leaves column, sequence number and value as they were |
| Tokens.Token.SetColNo | src/Lexical/Token.java:47 | sets the column and leaves the other fields as they were |
| Tokens.Token.SetSeqNo | src/Lexical/Token.java:48 | sets the sequence number and leaves the other fields as they were |
| Tokens.Token.SetValue | src/Lexical/Token.java:49 | sets the value and leaves the position fields as they were |
| Tokens.Token.View | src/Lexical/Token.java:39-43 | the getters: the snapshot carries the token's code, line, column, sequence number and value |
| Tokens.Sentinel | src/Lexical/Token.java:9-15 | the shared NONE and UNKNOWN tokens carry only their code: no value and zero positions |
| Tokens.EqualsIsCodeEquality | src/Lexical/Token.java:36 | `equals` holds exactly when the codes agree, so it is reflexive, symmetric and transitive and ignores position and value |
| Patterns.LitMeaning | src/CSCI502/Project/Lexical/StateMachine.java:146-180 | a single-character pattern matches that character and nothing else |
| Patterns.NumericMeaning | src/CSCI502/Project/Lexical/Match.java:15 | `[0-9]` matches exactly the decimal digits |
| Patterns.AlphaNumUsMeaning | src/CSCI502/Project/Lexical/Match.java:14 | `[a-zA-Z0-9_]` matches exactly ASCII letters, digits and underscore |
| Patterns.AlphaUsMeaning | src/CSCI502/Project/Lexical/StateMachine.java:183 | `[a-zA-Z_]` matches exactly ASCII letters and underscore |
| Patterns.WsMeaning | src/CSCI502/Project/Lexical/Match.java:9 | `\s` matches exactly space, tab, newline, vertical tab, form feed and carriage return |
| Patterns.NotRAngleBrMeaning | src/CSCI502/Project/Lexical/Match.java:17 | the class matches a newline, or any character that is not a line terminator, `>` or `-` |
| Patterns.SmallClassesMeaning | src/CSCI502/Project/Lexical/Match.java:12-18 | `[Ee]`, `"`, `\.` and `\n` each match exactly their characters |
| Patterns.DotExcludesLineTerminators | src/CSCI502/Project/Lexical/StateMachine.java:322-340 | `.` matches every character except the line terminators, and neither `.` nor the string-body class matches a carriage return |
| DataTypes.Size | src/CSCI502/Project/Runtime/Interface/DataType.java:24-31 | sizes are non-negative for every type except the string immediate, and the integer types take 4 bytes |
| DataTypes.GetType | src/CSCI502/Project/Runtime/Interface/DataType.java:33-46 | the answer is Empty or a declarable type, and it is declarable exactly for "char", "bool" and "int4", whose name it carries |
| DataTypes.EqualsIsIdentity | src/CSCI502/Project/Runtime/Interface/DataType.java:51-52 | comparing names is type equality, because the names are distinct |
| DataTypes.GetTypeOfName | src/CSCI502/Project/Runtime/Interface/DataType.java:33-49 | looking up a declarable type by its own name gives it back, and any other type's name ("void" included) gives Empty |
| LexStates.NewState | src/CSCI502/Project/Lexical/State.java:35-54 | the three constructors: `()` gives code NONE without force-stop, `(code)` the code without force-stop, `(code, stop)` both; no state starts with transitions |
| LexStates.AddTransition | src/CSCI502/Project/Lexical/State.java:71-74 | the transition is appended after the existing ones; code and force-stop are unchanged |
| LexStates.FirstMatchWins | src/CSCI502/Project/Lexical/State.java:81-92 | when transition k is the first whose pattern accepts the character, its target is the answer |
| LexStates.NoMatchStops | src/CSCI502/Project/Lexical/State.java:90-91 | when no pattern accepts the character the answer is STOPPED |
| LexStates.FirstMatchIsTarget | src/CSCI502/Project/Lexical/State.java:81-92 | the answer is STOPPED or the target of one of the transitions |
| LexStates.FirstMatchTarget | src/CSCI502/Project/Lexical/State.java:81-92 | when all targets lie below a bound, the answer is STOPPED or a state below that bound |
| LexStates.AddTransitionPrecedence | src/CSCI502/Project/Lexical/State.java:71-92 | a later transition never overrides an earlier one: it decides only characters that no earlier pattern accepts |
| LexStates.GetNext | src/CSCI502/Project/Lexical/State.java:81-92 | the loop over the transitions returns the first-match target, or STOPPED |
| Automaton.StateAt | src/CSCI502/Project/Lexical/StateMachine.java:194-195 | state 1 of the table is the shared EMPTY state |
| Automaton.TableClosed | src/CSCI502/Project/Lexical/StateMachine.java:134-366 | every transition `init` adds targets a state of the 47-entry table |
| Automaton.NextId | src/CSCI502/Project/Lexical/StateMachine.java:109 | the next state from any table state is STOPPED or a table index |
| Automaton.CodeChain | src/CSCI502/Project/Lexical/StateMachine.java:89-96 | the chain has one code per history entry: the code of that state, in order |
| Automaton.Start | src/CSCI502/Project/Lexical/StateMachine.java:78-87 | the constructed or reset machine is consistent: current state 0, history [start], valid, no rewind |
| Automaton.Step | src/CSCI502/Project/Lexical/StateMachine.java:106-120 | `advance` keeps the machine consistent |
| Automaton.Run | src/CSCI502/Project/Lexical/StateMachine.java:106-120 | feeding a whole string keeps the machine consistent |
| Automaton.StepCases | src/CSCI502/Project/Lexical/StateMachine.java:106-120 | on STOPPED, `advance` keeps state and history and sets invalid and rewind; otherwise it enters the target, appends it to the history, turns invalid exactly at a force-stop state, and keeps the rewind flag |
| Automaton.RewindOnlyByStopping | src/CSCI502/Project/Lexical/StateMachine.java:110-113 | the rewind flag is raised only by the STOPPED branch, which leaves state and history alone |
| Automaton.StartRewindIsNone | src/CSCI502/Project/Lexical/StateMachine.java:110-113 | if the start state must rewind, the current code is the start state's NONE |
| Automaton.WhitespaceLoops | src/CSCI502/Project/Lexical/StateMachine.java:142-143 | whitespace loops on the start state, adding one more start entry to the history, and the code stays NONE |
| Automaton.Takes | src/CSCI502/Project/Lexical/StateMachine.java:109 | the machine takes the first transition of the current state whose pattern accepts the character |
| Automaton.StartOnLetter | src/CSCI502/Project/Lexical/StateMachine.java:182-183 | a letter or underscore enters the identifier state 30 |
| Automaton.StartOnDigit | src/CSCI502/Project/Lexical/StateMachine.java:185-186 | a digit enters the integer state 31 |
| Automaton.OperatorsHalt | src/CSCI502/Project/Lexical/StateMachine.java:151-251 | `=`, `+`, `-`, `*`, `/`, `^`, `!`, `&` and the vertical bar enter at once a halting state with their own code |
| Automaton.PunctuationHalts | src/CSCI502/Project/Lexical/StateMachine.java:167-277 | parentheses, brackets, braces, comma, semicolon, colon and `@` enter at once a halting state with their own code |
| Automaton.LessSubmachine | src/CSCI502/Project/Lexical/StateMachine.java:145-212 | `<` is LESS (not halting); `<=` LESS_EQ and `<-` ASSIGN halt; `<<` is UNKNOWN; `<<-` enters the block comment |
| Automaton.BlockComment | src/CSCI502/Project/Lexical/StateMachine.java:346-366 | a block comment stays open on anything but `-` (carriage return excepted, which stops the machine) and closes, halting, on `->>`; every state in it has code COMMENT |
| Automaton.CarriageReturnInBlockComment | src/CSCI502/Project/Lexical/StateMachine.java:352 | a carriage return inside a block comment matches no transition |
| Automaton.TildeSubmachine | src/CSCI502/Project/Lexical/StateMachine.java:151-233 | `~` alone is UNKNOWN and `~=` is NOT_EQUAL, which halts |
| Automaton.NumberSubmachine | src/CSCI502/Project/Lexical/StateMachine.java:285-314 | digits give INTEGER; a dot then digits REAL; an exponent mark (with an optional sign) is UNKNOWN until a digit makes it REAL again; none of these states halts |
| Automaton.StringSubmachine | src/CSCI502/Project/Lexical/StateMachine.java:316-334 | a string runs through STRING_PARTIAL; the closing quote gives STRING and a newline STRING_INVALID, both halting; a backslash escapes the next character, a quote or backslash included |
| Automaton.StartStopsOnDollar | src/CSCI502/Project/Lexical/StateMachine.java:139-192 | no transition of the start state accepts `$` |
| Automaton.TildeStops | src/CSCI502/Project/Lexical/StateMachine.java:230 | after `~` only `=` is accepted |
| Automaton.IdentEdges | src/CSCI502/Project/Lexical/StateMachine.java:279-283 | letters, digits and `_` continue an identifier, a carriage return stops it, and the code is IDENT |
| Automaton.LineCommentEdges | src/CSCI502/Project/Lexical/StateMachine.java:336-344 | a line comment takes every non-terminator and `\n` closes it with a halting COMMENT state |
| Automaton.StartTakesNewline | src/CSCI502/Project/Lexical/StateMachine.java:143 | a newline loops on the start state |
| Automaton.StateMachine.Snapshot | src/CSCI502/Project/Lexical/StateMachine.java:72-76 | the object's fields form a consistent machine value |
| Automaton.StateMachine.constructor | src/CSCI502/Project/Lexical/StateMachine.java:78-87 | a new machine is in the start configuration |
| Automaton.StateMachine.Stopped | src/CSCI502/Project/Lexical/StateMachine.java:99 | `stopped()` is the negation of the valid flag |
| Automaton.StateMachine.Rewind | src/CSCI502/Project/Lexical/StateMachine.java:100 | `rewind()` answers the rewind flag |
| Automaton.StateMachine.CurrentTSCode | src/CSCI502/Project/Lexical/StateMachine.java:98 | the code of the last history entry |
| Automaton.StateMachine.Advance | src/CSCI502/Project/Lexical/StateMachine.java:106-120 | the new state is `Step` of the old one |
| Automaton.StateMachine.Reset | src/CSCI502/Project/Lexical/StateMachine.java:125-132 | the machine is back in the start configuration |
| Automaton.StateMachine.GetTSCodeChain | src/CSCI502/Project/Lexical/StateMachine.java:89-96 | the loop collects the history's codes in order |
| Escapes.Unescaped | src/Lexical/Analyzer.java:222-245 | an escaped `n`, `t`, `r`, `"` or `b` becomes one character; any other escaped character is kept after its backslash |
| Escapes.DecodeOntoAppends | src/Lexical/Analyzer.java:211-252 | the accumulating form of the escape loop appends exactly the decoded text to what it already holds |
| Escapes.StripQuotes | src/Lexical/Analyzer.java:214 | the live loop reads from the second character to the one before last, and reads nothing from a text shorter than two characters |
| Escapes.DecodeAppendPlain | src/Lexical/Analyzer.java:248-249 | an unescaped ordinary character is copied and decoding goes on with the rest |
| Escapes.DecodeEscape | src/Lexical/Analyzer.java:211-252 | decoding inverts escaping on every text without a backslash |
| Escapes.DecodePlain | src/Lexical/Analyzer.java:248-249 | a text without a backslash decodes to itself |
| Escapes.BackslashPairSwallowed | src/Lexical/Analyzer.java:217-219 | a backslash only sets the escape flag, so `\\` sets it twice and produces nothing: the `case '\\'` of the inner switch cannot be reached |
| Escapes.EscapeMeaning | src/Lexical/Analyzer.java:221-247 | a backslash followed by another character decodes to that character's escape meaning, then decoding goes on unescaped |
| Escapes.QuotedRoundTrip | src/Lexical/Analyzer.java:202-258 | a string token written as quote, escaped text, quote reads back as the original text under the live analyzer |
| Lexer.AsChars | src/Lexical/Analyzer.java:74-76 | each byte read becomes the character with the same code |
| Lexer.ReadNext | src/Lexical/Analyzer.java:74 | a read takes the pushed-back character first, then the input, and leaves one character fewer |
| Lexer.Count | src/Lexical/Analyzer.java:152-158 | a newline moves to the next line at column 0; any other character moves one column right |
| Lexer.BackOff | src/Lexical/Analyzer.java:87-111 | the back-off after an UNKNOWN stop always fails: the second unread overflows the one-character push-back, or `charAt(-1)` is out of bounds |
| Lexer.Advance | src/Lexical/Analyzer.java:78-83 | advances the machine, takes its current code, and keeps the character in the token text unless the code is NONE or it is a line break |
| Lexer.HaltContinues | src/Lexical/Analyzer.java:126-144 | a halt that continues is a dropped comment: the machine is reset and the character is pushed back only when the machine asked for a rewind |
| Lexer.DispatchContinues | src/Lexical/Analyzer.java:85-150 | after a pass that continues, the machine is still running with nothing pushed back, or a comment was dropped |
| Lexer.FeedContinues | src/Lexical/Analyzer.java:74-173 | one loop pass that continues keeps the scan well formed and consumes nothing more than the character read |
| Lexer.DispatchOutcomes | src/Lexical/Analyzer.java:85-173 | a returned token has the machine's code (never UNKNOWN or COMMENT), the start position and the current sequence number, and the sequence number then goes up by one; a failure is one of the two lexer failures |
| Lexer.LoopTurn | src/Lexical/Analyzer.java:74-174 | one turn of the read loop: at the end of input the loop is over; otherwise the pass on the character read decides whether it goes on, returns or throws |
| Lexer.LoopTurnOn | src/Lexical/Analyzer.java:74-174 | the same turn stated on the character read; a turn that goes on leaves less input to read |
| Lexer.LoopOutcomes | src/Lexical/Analyzer.java:74-174 | the loop returns only tokens whose code is neither UNKNOWN nor COMMENT, numbered with the current sequence number, which it then increments |
| Lexer.NextTokenOutcomes | src/Lexical/Analyzer.java:64-182 | `getNextToken` never returns UNKNOWN, COMMENT or STRING_PARTIAL, moves the sequence number on by at most one, numbers a returned token with the old sequence number, and fails only with the two lexer failures |
| Lexer.StopWithNoTextFails | src/Lexical/Analyzer.java:126-131 | a stop under code NONE on a character that is not a newline deletes from an empty text and throws StringIndexOutOfBounds(-1) |
| Lexer.UnrecognizedAtStartFails | src/Lexical/Analyzer.java:126-131 | a character the start state has no transition for makes `getNextToken` throw |
| Lexer.DollarFails | src/Lexical/Analyzer.java:126-131 | `$` is such a character |
| Lexer.FeedTakes | src/Lexical/Analyzer.java:78-83 | a running machine that moves to a non-halting state goes on, recording the state and its code and counting the character |
| Lexer.UnknownStopFails | src/Lexical/Analyzer.java:87-102 | a stop in an UNKNOWN state fails: with at most one character of text at `charAt(-1)`, otherwise at the second unread |
| Lexer.TildeAloneFails | src/Lexical/Analyzer.java:87-102 | `~` followed by anything but `=` or a line break ends in the refused second push-back |
| Lexer.StopReturnsToken | src/Lexical/Analyzer.java:126-148 | a stop after some text, on a code other than UNKNOWN and COMMENT, returns that code's token and pushes the character back; the text loses its last character when the character was a carriage return or the code is NONE |
| Lexer.FeedHalts | src/CSCI502/Project/Lexical/Analyzer.java:153-176 | entering a halting state returns its token, except a COMMENT, which is dropped; the live edition clears its text, while the legacy one keeps the last character (`delete(0, length() - 1)`) |
| Lexer.CarriageReturnCutsIdentifier | src/Lexical/Analyzer.java:126-131 | `ab\r` gives the identifier `a`, and the carriage return is read again |
| Lexer.IdentifierTail | src/Lexical/Analyzer.java:74-173 | the tail of that scenario: from `a` in the identifier state, `b\r` breaks out with IDENT and text `a` |
| Lexer.PendingIdentifierDropped | src/Lexical/Analyzer.java:174-181 | an identifier still open when the input ends is dropped, and the NONE token is returned |
| Lexer.UnterminatedStringAtEof | src/Lexical/Analyzer.java:176-178 | an unterminated string at the end of input gives STRING_INVALID; the live value drops the first and last characters, the legacy one keeps the text |
| Lexer.StringTail | src/Lexical/Analyzer.java:74-174 | the tail of that scenario: the input runs out in STRING_PARTIAL with the text read so far |
| Analyzers.Analyzer.ScanWith | src/Lexical/Analyzer.java:17-21 | the analyzer's fields, with the running loop's text and code, form a well-formed scan |
| Analyzers.Analyzer.State | src/Lexical/Analyzer.java:17-21 | the analyzer's fields between calls form a well-formed scan |
| Analyzers.Analyzer.constructor | src/Lexical/Analyzer.java:23-32 | a new analyzer has no stream, a fresh machine in its start state, and every position and the sequence number at zero |
| Analyzers.Analyzer.Init | src/Lexical/Analyzer.java:34-44 | `init` opens a stream over the data's bytes, with nothing pushed back, and zeroes the positions and the sequence number |
| Analyzers.Analyzer.InitCommandLine | src/CSCI502/Project/Lexical/Analyzer.java:55-74 | the legacy command-line `init` reads the line's bytes followed by `;` |
| Analyzers.Analyzer.Reset | src/Lexical/Analyzer.java:49-57 | `reset` puts the machine back in its start state and zeroes the positions, leaving the stream alone |
| Analyzers.Analyzer.Read | src/Lexical/Analyzer.java:74 | the pushback stream's `read`: -1 exactly when nothing is left, otherwise the next character as `ReadNext` gives it |
| Analyzers.Analyzer.CreateToken | src/Lexical/Analyzer.java:202-258 | a fresh token with the code, position and sequence number, whose value is the text, decoded when the code is STRING or STRING_INVALID |
| Analyzers.Analyzer.GetNextToken | src/Lexical/Analyzer.java:64-182 | before `init` it throws; otherwise it returns what `NextToken` describes and leaves the fields where `NextToken` leaves them |
| Analyzers.Analyzer.Close | src/Lexical/Analyzer.java:176-181 | after the loop: an invalid string token in place of a STRING_PARTIAL scan, otherwise the token found, or NONE |
| Analyzers.Analyzer.Turn | src/Lexical/Analyzer.java:74-173 | one turn of the read loop: end of input, or the pass on the character read |
| Analyzers.Analyzer.Take | src/Lexical/Analyzer.java:76-173 | a turn on the character read matches `Feed` on the old state |
| Analyzers.Analyzer.Conclude | src/Lexical/Analyzer.java:85-173 | the rest of a turn matches `Dispatch`: go on, back up after UNKNOWN, or halt |
| Analyzers.Analyzer.Proceed | src/Lexical/Analyzer.java:152-164 | while the machine runs: the position update, and a new start after a newline outside any token |
| Analyzers.Analyzer.BackUp | src/Lexical/Analyzer.java:87-102 | the back-off after UNKNOWN fails as `BackOff` describes |
| Analyzers.Analyzer.Stop | src/Lexical/Analyzer.java:126-149 | a stop on any other code matches `Halt`: the push-back, then the rest of the halt |
| Analyzers.Analyzer.PushBack | src/Lexical/Analyzer.java:128-132 | the rewind push-back: it fails on an empty text with StringIndexOutOfBounds(-1); otherwise the halt continues as `Settle` |
| Analyzers.Analyzer.Resolve | src/Lexical/Analyzer.java:136-173 | the machine reset, then the comment drop or the new token, as `Settle` describes |
| Analyzers.Analyzer.Drop | src/CSCI502/Project/Lexical/Analyzer.java:167-195 | the comment drop: the text cleared (live) or cut to its last character (legacy), and a new start |
| Analyzers.Analyzer.Emit | src/Lexical/Analyzer.java:145-172 | a new token for the code, and the sequence number moved on |
| Analyzers.Analyzer.Count | src/Lexical/Analyzer.java:152-158 | a newline moves to the next line at column 0; any other character moves one column right; nothing else changes |
| Analyzers.DecodeSpan | src/Lexical/Analyzer.java:211-252 | the escape loop over a span computes the decoded text of that span |
| TokenStreams.LastBefore | src/Lexical/BufferedTokenStream.java:92-95 | the backward search answers the last position at or before the start that holds the token (by identity), or -1 when there is none |
| TokenStreams.LastBeforeFinds | src/Lexical/BufferedTokenStream.java:92-96 | in a buffer without duplicates the search succeeds exactly when the token is buffered at or before the start, and then it lands on that token's position |
| TokenStreams.EvictDropsOldest | src/Lexical/BufferedTokenStream.java:48-61 | a fetch on a full buffer drops the one or two oldest tokens, never the marked one, and keeps the rest in order |
| TokenStreams.EvictKeepsValid | src/Lexical/BufferedTokenStream.java:48-61 | eviction keeps the buffer free of duplicates, keeps the marked token, and adds nothing |
| TokenStreams.DistinctAppend | src/Lexical/BufferedTokenStream.java:62-63 | appending a fresh token keeps the buffer free of duplicates |
| TokenStreams.FetchCursor | src/Lexical/BufferedTokenStream.java:48-66 | after a fetch the cursor sits one past the new token; on a buffer of five or more it is then one past the end of the buffer, so the next `unread` or `rewind` fails |
| TokenStreams.UnmarkedFetchShrinks | src/Lexical/BufferedTokenStream.java:48-57 | with nothing marked, a fetch never leaves more than six tokens unless it started with more, and then it shrinks the buffer |
| TokenStreams.MarkedFetchGrows | src/Lexical/BufferedTokenStream.java:58-60 | with the oldest token marked, a full buffer keeps every token and the cursor moves on |
| TokenStreams.MarkedFetchesKeepAll | src/Lexical/BufferedTokenStream.java:48-66 | with the oldest token marked and the cursor at the end, any number of fetches keeps every token, in order, and leaves the cursor at the end |
| TokenStreams.CommandLineScan | src/Lexical/BufferedTokenStream.java:38-95 | on a cleared stream, reading a line with its first token marked and then NONE buffers the whole line; the rewind then starts its search at the position just past the buffer exactly when the line has five tokens or more, and at the last token otherwise |
| TokenStreams.BufferedTokenStream.constructor | src/Lexical/BufferedTokenStream.java:24-31 | an empty buffer, the cursor at 0, not at the end, nothing marked |
| TokenStreams.BufferedTokenStream.Read | src/Lexical/BufferedTokenStream.java:33-80 | at the end it answers null; behind the last buffered token it answers the token under the cursor and moves on; at cursor -1 it throws; otherwise it fetches from the analyzer, evicting first, and answers the new token (or null at the end of input) |
| TokenStreams.BufferedTokenStream.Fetch | src/Lexical/BufferedTokenStream.java:38-71 | the analyzer's next token and what the buffer does with it, the analyzer's exception included |
| TokenStreams.BufferedTokenStream.Admit | src/Lexical/BufferedTokenStream.java:48-70 | the buffer's reaction to a fetched token: eviction, then append and cursor bump, or the end of the stream on NONE |
| TokenStreams.BufferedTokenStream.Unread | src/Lexical/BufferedTokenStream.java:82-88 | steps back exactly when the token just before the cursor is the one given (by identity); throws when there is no such position |
| TokenStreams.BufferedTokenStream.Rewind | src/Lexical/BufferedTokenStream.java:90-100 | moves the cursor to the last position at or before the start holding the mark and clears the end flag; never answers false, because a failed search reads position -1 and throws; a cursor past the end throws at once |
| TokenStreams.BufferedTokenStream.Mark | src/Lexical/BufferedTokenStream.java:107-116 | marks the token exactly when it is buffered, otherwise changes nothing |
| TokenStreams.BufferedTokenStream.Unmark | src/Lexical/BufferedTokenStream.java:118-121 | clears the mark and nothing else |
| TokenStreams.BufferedTokenStream.Clear | src/Lexical/BufferedTokenStream.java:123-129 | an empty buffer, the cursor at 0, the stream open again, nothing marked |
| TokenStreams.BufferedTokenStream.MakeRoom | src/Lexical/BufferedTokenStream.java:48-61 | the in-place eviction equals `Evict` and keeps the buffer valid |
| SymbolTables.SymbolTable.constructor | src/Runtime/JIT/SymbolTable.java:73-77 | a new table has an empty catalog over the given storage |
| SymbolTables.SymbolTable.RegisterVariable | src/Runtime/JIT/SymbolTable.java:46-49 | the name is (re)bound to an entry with its type and the storage's old next address; storage grows by the type's size and keeps its old bytes; a table whose entries were laid out stays laid out |
| SymbolTables.SymbolTable.GetVariableParams | src/Runtime/JIT/SymbolTable.java:58-66 | a registered name gives its type and offset; any other name throws IllegalArgumentException |
| SymbolTables.RegisteredInt4Roundtrip | src/Runtime/JIT/SymbolTable.java:58-66 | an Int4 variable of a laid-out table can be stored to and fetched from at its offset without failure, and fetches what was stored |
| SymbolTables.LegacySymbolTable.constructor | src/CSCI502/Project/ExecLib/SymbolTable.java:34-40 | the id counter starts at 0 with an empty catalog |
| SymbolTables.LegacySymbolTable.RegisterSymbol | src/CSCI502/Project/ExecLib/SymbolTable.java:42-45 | allocates storage, records the entry under the next id, returns that id (which was unused) and moves the counter on by one |
| SymbolTables.LegacySymbolTable.GetSymbolParams | src/CSCI502/Project/ExecLib/SymbolTable.java:47-55 | an id that was handed out gives its type and offset; any other id throws IllegalArgumentException |
| StaticMemories.Encode | src/Runtime/Machine/StaticMemory.java:76-82 | `putInt` writes four bytes |
| StaticMemories.DecodeEncode | src/Runtime/Machine/StaticMemory.java:76-83 | `getInt` of the bytes `putInt` wrote gives the value back |
| StaticMemories.EncodeDecode | src/Runtime/Machine/StaticMemory.java:76-83 | `putInt` of what `getInt` read gives the same four bytes back |
| StaticMemories.Put | src/Runtime/Machine/StaticMemory.java:129-138 | the byte copy with `List.set` keeps the store's length; it succeeds exactly when the whole range lies inside the store, and then places the bytes at the offset; positions outside the range are unchanged |
| StaticMemories.Gather | src/Runtime/Machine/StaticMemory.java:140-145 | the byte copy with `List.get` succeeds exactly when the range lies inside the store, and then gives the bytes of that range |
| StaticMemories.LoadStored | src/Runtime/Machine/StaticMemory.java:97-107 | a value stored in range is fetched back |
| StaticMemories.LoadElsewhere | src/Runtime/Machine/StaticMemory.java:97-107 | a store leaves every four-byte range it does not overlap fetching what it fetched before |
| StaticMemories.StaticMemory.constructor | src/Runtime/Machine/StaticMemory.java:60-67 | an empty store whose next address is 0, so the next address is the end of the store (`Valid`) |
| StaticMemories.StaticMemory.Allocate | src/Runtime/Machine/StaticMemory.java:88-95 | returns the old next address, moves it on by the type's size (back by one for a string immediate), and appends that many zero bytes (none for a negative size); the next address stays the end of the store exactly when the type is not a string immediate |
| StaticMemories.StaticMemory.Store | src/Runtime/Machine/StaticMemory.java:97-101 | a type other than Int4 has no codec and fails with a NullPointerException; Int4 writes the four bytes at the offset, failing at the first position outside the store; the store's length and next address do not change, so `Valid` is kept |
| StaticMemories.StaticMemory.Fetch | src/Runtime/Machine/StaticMemory.java:103-107 | a type other than Int4 fails with a NullPointerException; Int4 reads and decodes the four bytes at the offset |
| Stacks.Zeros | src/Runtime/Machine/VHdwStack.java:29-31 | the allocated slots all hold the zero immediate |
| Stacks.PushOnSound | src/Runtime/Machine/VHdwStack.java:40-56 | a push on a sound stack succeeds, moves the pointer up by one, stores the object there, keeps every other slot and never shrinks the storage |
| Stacks.PushGrowsAtTop | src/Runtime/Machine/VHdwStack.java:44-48 | a push with the pointer at or past the last slot adds ten slots |
| Stacks.PopUnderflow | src/Runtime/Machine/VHdwStack.java:65-67 | a pop with a negative pointer throws "Stack underflow" and changes nothing |
| Stacks.PopOnSound | src/Runtime/Machine/VHdwStack.java:63-74 | a pop of a non-empty sound stack returns the top slot and leaves a sound stack one lower |
| Stacks.PushThenPop | src/Runtime/Machine/VHdwStack.java:40-74 | push then pop returns the pushed object and restores the stack pointer |
| Stacks.InsertOnSound | src/CSCI502/Project/Runtime/Machine/VStack.java:40-53 | the older stack's push inserts the object above the pointer, so the slots below keep their place and those above move up by one |
| Stacks.InsertThenPop | src/CSCI502/Project/Runtime/Machine/VStack.java:40-71 | the older stack's push then pop also returns the object and restores the pointer |
| Stacks.VHdwStack.constructor | src/Runtime/Machine/VHdwStack.java:21-32 | both pointers start at -1 over ten zero slots |
| Stacks.VHdwStack.Push | src/Runtime/Machine/VHdwStack.java:40-56 | the new slots and pointer are those of `PushOn`; the base pointer is untouched |
| Stacks.VHdwStack.Pop | src/Runtime/Machine/VHdwStack.java:63-74 | the result and pointer are those of `PopOff`; the slots and base pointer are untouched |
| Stacks.VStack.constructor | src/CSCI502/Project/Runtime/Machine/VStack.java:21-32 | both pointers start at -1 over ten zero slots |
| Stacks.VStack.Push | src/CSCI502/Project/Runtime/Machine/VStack.java:40-53 | the new slots and pointer are those of `Insert` |
| Stacks.VStack.Pop | src/CSCI502/Project/Runtime/Machine/VStack.java:60-71 | the result and pointer are those of `PopOff`; the slots are untouched |
| JavaInt.Wrap | src/Runtime/Machine/VirtualMachine.java:195 | narrowing to 32 bits is congruent to the exact result modulo 2^32 and leaves an in-range result alone |
| JavaInt.WrapChangesIffOverflow | src/Runtime/Machine/VirtualMachine.java:188-196 | wrapping changes the exact result exactly when it is out of range, which is when `Math.addExact` would throw |
| JavaInt.QuotRem | src/Runtime/Machine/VirtualMachine.java:345-346 | Java's truncating quotient and remainder recompose the dividend, the remainder is smaller than the divisor in magnitude and has the dividend's sign, and the quotient never exceeds the dividend in magnitude |
| JavaInt.IntDivOverflowsOnlyAtMin | src/Runtime/Machine/VirtualMachine.java:345 | `a / b` on ints differs from the exact truncated quotient only for MIN_INT / -1 |
| JavaInt.QuotOutOfRange | src/Runtime/Machine/VirtualMachine.java:345 | the truncated quotient leaves the int range only for MIN_INT / -1 |
| JavaInt.IntRem | src/Runtime/Machine/VirtualMachine.java:346 | `a % b` on ints is the truncated remainder, which always fits |
| JavaInt.Saturate | src/Runtime/Machine/VirtualMachine.java:391-394 | the `(int)` cast of a double leaves in-range values alone |
| JavaInt.Negate | src/Runtime/Machine/VirtualMachine.java:412 | unary minus is the exact negation, except that MIN_INT negates to itself |
| JavaInt.DigitChar | src/Runtime/Machine/VirtualMachine.java:885 | the digit character for a value below ten has that value |
| JavaInt.Digits | src/Runtime/Machine/VirtualMachine.java:885 | the decimal form of a natural number is a non-empty string of digits |
| JavaInt.DigitsRoundTrip | src/Runtime/Machine/VirtualMachine.java:885 | reading the decimal form back gives the number |
| JavaInt.ParseInt | src/Parsing/Productions.java:926 | `Integer.parseInt` on an unsigned digit string succeeds exactly when the string is non-empty, all digits, and at most MAX_INT, and then gives its value |
| JavaInt.ParsePrinted | src/Parsing/Productions.java:926 | printing a non-negative int and parsing it back gives the same int |
| CompilerErrors.EscapeNewlines | src/Runtime/JIT/CompilerErrors.java:107 | `replace("\n", "\\n")` leaves no newline, lengthens the text by one per newline, and leaves a text without newlines alone |
| CompilerErrors.Format | src/Runtime/JIT/CompilerErrors.java:94-113 | formatting fails (a NullPointerException) exactly for a STRING token without a value |
| CompilerErrors.Tail | src/Runtime/JIT/CompilerErrors.java:111 | the message body is closed with a period |
| CompilerErrors.FormatShape | src/Runtime/JIT/CompilerErrors.java:94-113 | every formatted message starts with the level and error type and ends in a period |
| CompilerErrors.FormatWithoutToken | src/Runtime/JIT/CompilerErrors.java:96-103 | without a token the message is the head, `: `, the message and a period |
| CompilerErrors.FormatNoneToken | src/Runtime/JIT/CompilerErrors.java:99-104 | a NONE token adds its position but no value |
| CompilerErrors.FormatValueToken | src/Runtime/JIT/CompilerErrors.java:104-110 | any other non-string token adds its value in parentheses after the message |
| CompilerErrors.FormatMessage | src/Runtime/JIT/CompilerErrors.java:89-92 | the message-constant overload formats the constant's label |
| CompilerErrors.LegacyFormat | src/CSCI502/Project/Parsing/CompilerErrors.java:86-98 | the legacy formatter fails exactly without a token, because it reads the token's position unconditionally |
| CompilerErrors.LegacyFormatShape | src/CSCI502/Project/Parsing/CompilerErrors.java:86-98 | a legacy message starts with the level and error type, has its period right after the message, and ends there exactly when the token is NONE |
| Instructions.TypeOf | src/Runtime/Machine/VirtualMachine.java:80-85 | a register operand reports Register, an integer immediate Imm_Int4, and a string immediate Imm_Str |
| Instructions.AsInt | src/Runtime/Machine/VirtualMachine.java:190 | the `(int)` cast of an Object succeeds exactly on an Integer and gives its value |
| Instructions.AsReg | src/Runtime/Machine/VirtualMachine.java:120 | the `(RegId)` cast succeeds exactly on a register name |
| Instructions.AsText | src/Runtime/Machine/VirtualMachine.java:875-885 | the `(String)` cast succeeds on a string or null |
| Instructions.Arg | src/Runtime/Machine/VirtualMachine.java:747 | `operands.get(i)` succeeds exactly when the list exists and is long enough, and gives its i-th element |
| Machines.Write | src/Runtime/Machine/Register.java:27-31 | setting a register's value and type changes that register alone and leaves flags, stack, storage and console as they were |
| Machines.MovRegister | src/Runtime/Machine/VirtualMachine.java:86-94 | MOV register to register gives the destination the source's value and type and changes no other register |
| Machines.MovImmediate | src/Runtime/Machine/VirtualMachine.java:95-108 | MOV of an int immediate leaves the register typed Int4, of a string immediate typed Imm_Str, and changes nothing else |
| Machines.MovRejects | src/Runtime/Machine/VirtualMachine.java:79-152 | MOV to an immediate, of a literal into storage, memory to memory, or between mismatched types raises its UnsupportedOperationException with the source's message and changes nothing |
| Machines.MovStoreThenLoad | src/Runtime/Machine/VirtualMachine.java:109-145 | storing an Int4 register into a variable and moving the variable back into a register restores the register's value and type |
| Machines.ArithInt4 | src/Runtime/Machine/VirtualMachine.java:156-208 | ADD, SUB and MULT of Int4 registers write the 32-bit wrapped result to dst, set OF exactly when the exact result overflows, set ZF and SF from the wrapped result, and change no other register |
| Machines.ArithWrites | src/Runtime/Machine/VirtualMachine.java:183-206 | the flags are written from the wrapped result before the result goes into dst |
| Machines.BinaryRejects | src/Runtime/Machine/VirtualMachine.java:162-181 | a two-register instruction with a non-register operand or registers of different types raises before anything changes, with the source's message |
| Machines.DivInt4 | src/Runtime/Machine/VirtualMachine.java:311-358 | DIV puts the truncated quotient in dst and the remainder in R4, the two recompose the dividend (outside MIN_INT / -1), the remainder is smaller than the divisor in magnitude, division by zero raises ArithmeticException, and OF is cleared |
| Machines.NegNeverCompletes | src/Runtime/Machine/VirtualMachine.java:403-437 | NEG negates the register and then, lacking a `break`, falls into SAR, which reads a missing second operand: NEG never completes |
| Machines.ShiftsNeverComplete | src/Runtime/Machine/VirtualMachine.java:420-495 | SAR, SAL, SLR and SLL never complete: their shift count, an int, is cast to a byte, which raises ClassCastException before any register changes |
| Machines.CompareNeverCompletes | src/Runtime/Machine/VirtualMachine.java:515-752 | CMP, TEST, OR, XOR and AND fall through into the jumps and never complete |
| Machines.LogicsNeverJump | src/Runtime/Machine/VirtualMachine.java:554-742 | running the bitwise labels in order never completes with a jump taken |
| Machines.LogicsRaise | src/Runtime/Machine/VirtualMachine.java:554-752 | from any of the bitwise labels, falling through to JMP with a register operand raises |
| Machines.JumpsNeverComplete | src/Runtime/Machine/VirtualMachine.java:744-843 | falling through the jump labels never completes with a jump taken |
| Machines.JumpsRaiseOnInt | src/Runtime/Machine/VirtualMachine.java:744-843 | with an int operand the jump labels always end in ClassCastException at SETL or PRNT |
| Machines.JmpNeverCompletes | src/Runtime/Machine/VirtualMachine.java:744-843 | JMP sets IP to its own address plus the offset and then fails on a cast further down, leaving IP at the target |
| Machines.JmpLabelRaises | src/Runtime/Machine/VirtualMachine.java:744-843 | entered at the JMP label, the jump is taken and the labels after it raise ClassCastException with IP at the target |
| Machines.JumpsKeepIp | src/Runtime/Machine/VirtualMachine.java:754-824 | the conditional jumps after JMP only ever set IP to the same target, so IP stays where JMP put it |
| Machines.ExecAdvances | src/Runtime/Machine/VirtualMachine.java:854-861 | every instruction that completes leaves IP at the next address |
| Machines.PushThenPopCopies | src/Runtime/Machine/VirtualMachine.java:496-513 | PUSH of a register and then POP into another copies value and type and gives the stack pointer back |
| Machines.PopEmpty | src/Runtime/Machine/VirtualMachine.java:505-513 | POP on an empty stack raises the underflow and changes nothing |
| Machines.PrntAppends | src/Runtime/Machine/VirtualMachine.java:880-893 | PRNT appends an Int4 register in decimal and a string register as it is, rejects any other type with the source's message, and needs a console |
| Machines.ClrEmpties | src/Runtime/Machine/VirtualMachine.java:844-851 | CLR empties the console and leaves an empty string in R1, which then prints as nothing |
| Machines.AccumulatorMatchesPrint | src/Runtime/Machine/VirtualMachine.java:870-878 | for an Int4 accumulator, `getAccumulatorValue` succeeds exactly when PRNT R1 does and appends the same text |
| Machines.RunEndsAtLength | src/Runtime/Machine/VirtualMachine.java:64-863 | a run that ends normally from an address inside the program ends with IP at the program's length |
| Machines.VirtualMachine.constructor | src/Runtime/Machine/VirtualMachine.java:30-49 | a new machine has cleared flags, no console and no program, IP 0 typed Imm_Int4, blank registers, and an empty zeroed stack |
| Machines.VirtualMachine.InitializeIO | src/Runtime/Machine/VirtualMachine.java:51-54 | attaches the console and changes nothing else |
| Machines.VirtualMachine.Load | src/Runtime/Machine/VirtualMachine.java:56-62 | keeps the program and sets IP to 0, keeping its type, with flags and console unchanged |
| Machines.VirtualMachine.Install | src/Runtime/Machine/VirtualMachine.java:24-28 | the fields, stack and storage together become the given machine state |
| Machines.VirtualMachine.Execute | src/Runtime/Machine/VirtualMachine.java:64-863 | the fetch-execute loop ends in exactly the state and exception that the step-by-step run function gives |
| Machines.VirtualMachine.GetAccumulatorValue | src/Runtime/Machine/VirtualMachine.java:870-878 | appends R1 in decimal when it is Int4 and leaves the builder alone otherwise |
| LegacyMachines.Id | src/CSCI502/Project/Runtime/Machine/Register.java:24-27 | a register's id is below 8, so it picks one of the eight stores |
| LegacyMachines.IdInjective | src/CSCI502/Project/Runtime/Machine/VirtualMachine.java:33-40 | distinct registers have distinct ids, so each register has its own store |
| LegacyMachines.Set | src/CSCI502/Project/Runtime/Machine/VRegisterStore.java:29-34 | setting a register's store changes that store alone and keeps the stack and the console |
| LegacyMachines.AsGeneral | src/CSCI502/Project/Runtime/Machine/VirtualMachine.java:69-70 | the cast to a register succeeds exactly for the name of one of the eight registers and yields that register |
| LegacyMachines.Nth | src/CSCI502/Project/Runtime/Machine/VirtualMachine.java:62-63 | fetching operand i succeeds exactly when i is in range and yields that operand |
| LegacyMachines.Move | src/CSCI502/Project/Runtime/Machine/VirtualMachine.java:60-124 | MOVE keeps the machine well formed: eight stores and no variable reference in any register, whether it completes or throws |
| LegacyMachines.Operands | src/CSCI502/Project/Runtime/Machine/VirtualMachine.java:125-165 | the operand checks of the arithmetic opcodes keep the machine well formed when they throw, and pass only an Int4 destination on |
| LegacyMachines.Arith | src/CSCI502/Project/Runtime/Machine/VirtualMachine.java:125-247 | ADD, SUBTRACT and MULTIPLY keep the machine well formed, whether they complete or throw |
| LegacyMachines.Divide | src/CSCI502/Project/Runtime/Machine/VirtualMachine.java:248-293 | DIVIDE keeps the machine well formed, whether it completes or throws |
| LegacyMachines.Append | src/CSCI502/Project/Runtime/Machine/VirtualMachine.java:335-338 | appending to the console keeps the machine well formed, and a missing console throws |
| LegacyMachines.SendToConsole | src/CSCI502/Project/Runtime/Machine/VirtualMachine.java:321-343 | printing a register keeps the machine well formed, whether it completes or throws |
| LegacyMachines.Print | src/CSCI502/Project/Runtime/Machine/VirtualMachine.java:309-313 | PRINT keeps the machine well formed, whether it completes or throws |
| LegacyMachines.Pop | src/CSCI502/Project/Runtime/Machine/VirtualMachine.java:301-313 | POP, falling through into PRINT, keeps the machine well formed, whether it completes or throws |
| LegacyMachines.Push | src/CSCI502/Project/Runtime/Machine/VirtualMachine.java:294-313 | PUSH, falling through into POP and PRINT, keeps the machine well formed, whether it completes or throws |
| LegacyMachines.Step | src/CSCI502/Project/Runtime/Machine/VirtualMachine.java:56-314 | one pass of the loop's switch keeps the machine well formed, whether it completes or throws |
| LegacyMachines.Run | src/CSCI502/Project/Runtime/Machine/VirtualMachine.java:55-315 | running the instructions in order keeps the machine well formed, and the run stops at the first exception |
| LegacyMachines.ExecuteAll | src/CSCI502/Project/Runtime/Machine/VirtualMachine.java:53-319 | running the loaded program and then printing R1 keeps the machine well formed |
| LegacyMachines.Then | src/CSCI502/Project/Runtime/Machine/VirtualMachine.java:55-315 | an exception raised by one instruction ends the run with that exception and that state |
| LegacyMachines.RunStep | src/CSCI502/Project/Runtime/Machine/VirtualMachine.java:55-315 | a run is the first instruction followed by the run of the rest |
| LegacyMachines.RunConcat | src/CSCI502/Project/Runtime/Machine/VirtualMachine.java:55-315 | running two programs back to back is running their concatenation |
| LegacyMachines.MoveRegisterLoadsName | src/CSCI502/Project/Runtime/Machine/VirtualMachine.java:66-97 | MOVE between registers falls through into the immediate case and leaves the source register's name, typed Int4, in the destination, not the source's content |
| LegacyMachines.MoveImmediate | src/CSCI502/Project/Runtime/Machine/VirtualMachine.java:91-104 | MOVE of an int immediate loads it typed Int4, of a string immediate typed Imm_Str |
| LegacyMachines.MoveRejects | src/CSCI502/Project/Runtime/Machine/VirtualMachine.java:64-122 | MOVE to a non-register throws UnsupportedOperationException, and MOVE from a variable throws ClassCastException on the register cast; neither changes the machine |
| LegacyMachines.ArithInt4 | src/CSCI502/Project/Runtime/Machine/VirtualMachine.java:125-247 | ADD, SUBTRACT and MULTIPLY on two Int4 registers give the destination the exact result wrapped to a Java int and change nothing else |
| LegacyMachines.ArithTypeMismatch | src/CSCI502/Project/Runtime/Machine/VirtualMachine.java:125-165 | registers of different types are refused with the type-mismatch message, leaving the machine as it was |
| LegacyMachines.DivideByZero | src/CSCI502/Project/Runtime/Machine/VirtualMachine.java:284 | DIVIDE by an Int4 zero throws ArithmeticException before either register is set |
| LegacyMachines.DivideInt4 | src/CSCI502/Project/Runtime/Machine/VirtualMachine.java:248-293 | DIVIDE gives the destination the Java quotient and R3 the remainder, which recompose the dividend unless MIN_INT / -1 wrapped, and changes no other register, the stack or the console |
| LegacyMachines.PushIsPrint | src/CSCI502/Project/Runtime/Machine/VirtualMachine.java:294-313 | PUSH pushes the register, pops it straight back into the same register and prints it: the whole effect is PRINT's |
| LegacyMachines.PopEmpty | src/CSCI502/Project/Runtime/Machine/VirtualMachine.java:301-308 | POP on an empty stack throws and changes nothing |
| LegacyMachines.PrintAppends | src/CSCI502/Project/Runtime/Machine/VirtualMachine.java:321-343 | PRINT appends an Int4 register in decimal and a string register as it is, fails with no console, and refuses every other type with the source's message |
| LegacyMachines.VirtualMachine.constructor | src/CSCI502/Project/Runtime/Machine/VirtualMachine.java:27-41 | a new machine has eight empty stores, an empty stack, no console and no program |
| LegacyMachines.VirtualMachine.InitializeIO | src/CSCI502/Project/Runtime/Machine/VirtualMachine.java:43-46 | attaches the console and changes nothing else |
| LegacyMachines.VirtualMachine.Load | src/CSCI502/Project/Runtime/Machine/VirtualMachine.java:48-51 | keeps the program and changes no register, the stack or the console |
| LegacyMachines.VirtualMachine.Install | src/CSCI502/Project/Runtime/Machine/VirtualMachine.java:22-25 | the fields become the given machine state, the program is kept |
| LegacyMachines.VirtualMachine.Execute | src/CSCI502/Project/Runtime/Machine/VirtualMachine.java:53-319 | the loop ends in exactly the state and exception that running the program and printing R1 gives, and the machine stays well formed |
| InstructionBuilders.Flatten | src/Runtime/API/InstructionBuilder.java:78-85 | laying out no segments gives the empty program |
| InstructionBuilders.FlattenConcat | src/Runtime/API/InstructionBuilder.java:78-85 | laying out two lists of segments one after the other is laying out their concatenation |
| InstructionBuilders.Appended | src/Runtime/API/InstructionBuilder.java:95-97 | an append succeeds exactly when the active index names a segment; it then adds the instruction at the end of that segment and changes no other segment, and otherwise fails with IndexOutOfBounds and changes nothing |
| InstructionBuilders.AppendedCommit | src/Runtime/API/InstructionBuilder.java:78-97 | after an append the committed program is the segments up to the active one, then the instruction, then the segments after it |
| InstructionBuilders.AppendedLast | src/Runtime/API/InstructionBuilder.java:78-97 | with the last segment active, an append adds the instruction at the end of the committed program |
| InstructionBuilders.Split | src/Runtime/API/InstructionBuilder.java:78-85 | the committed program splits at any segment boundary into the layouts of the two halves |
| InstructionBuilders.Snoc | src/Runtime/API/InstructionBuilder.java:81-83 | adding one segment after others adds its instructions at the end of the layout |
| InstructionBuilders.ActiveSegment | src/Runtime/API/InstructionBuilder.java:32-35 | the active segment is found exactly when the index names a segment, and is that segment |
| InstructionBuilders.InstructionBuilder.constructor | src/Runtime/API/InstructionBuilder.java:21-26 | a new builder has exactly one empty segment, and it is active |
| InstructionBuilders.InstructionBuilder.GetActiveCodeSegment | src/Runtime/API/InstructionBuilder.java:32-35 | returns the active segment, or fails when the index names none |
| InstructionBuilders.InstructionBuilder.SetActiveCodeSegment | src/Runtime/API/InstructionBuilder.java:51-57 | a positive index becomes active with no upper bound check; zero or a negative index throws IllegalArgumentException and changes nothing, so segment 0 can never be chosen again |
| InstructionBuilders.InstructionBuilder.CreateCodeSegment | src/Runtime/API/InstructionBuilder.java:62-66 | appends an empty segment and returns its index, the old segment count, leaving the active index alone |
| InstructionBuilders.InstructionBuilder.CreateSymbol | src/Runtime/API/InstructionBuilder.java:68-71 | registers the name with its type at the storage's next free address |
| InstructionBuilders.InstructionBuilder.Commit | src/Runtime/API/InstructionBuilder.java:78-85 | the loop returns the segments laid end to end in index order |
| InstructionBuilders.InstructionBuilder.Append | src/Runtime/API/InstructionBuilder.java:95-97 | adds the instruction at the end of the active segment, or fails when the index names no segment |
| InstructionBuilders.InstructionBuilder.Mov | src/Runtime/API/InstructionBuilder.java:87-99 | an immediate destination throws and appends nothing; any other appends MOV dst, src |
| InstructionBuilders.InstructionBuilder.Binary | src/Runtime/API/InstructionBuilder.java:101-159 | ADD, SUB, MUL, DIV and EXP each append their opcode on the two registers |
| InstructionBuilders.InstructionBuilder.Unary | src/Runtime/API/InstructionBuilder.java:161-192 | NEG, PUSH and POP each append their opcode on the one register |
| InstructionBuilders.InstructionBuilder.Print | src/Runtime/API/InstructionBuilder.java:196-205 | PRINT appends PRNT of its operand |
| InstructionBuilders.InstructionBuilder.Clear | src/Runtime/API/InstructionBuilder.java:207-213 | CLEAR appends CLR with no operand list |
| InstructionBuilders.LegacyInstructionBuilder.constructor | src/CSCI502/Project/Parsing/InstructionBuilder.java:21-26 | the older builder starts with no segment and active index 0 |
| InstructionBuilders.LegacyInstructionBuilder.SetActiveCodeSegment | src/CSCI502/Project/Parsing/InstructionBuilder.java:51-57 | a positive index becomes active; zero or a negative index throws IllegalArgumentException and changes nothing |
| InstructionBuilders.LegacyInstructionBuilder.CreateCodeSegment | src/CSCI502/Project/Parsing/InstructionBuilder.java:62-66 | appends an empty segment and returns its index |
| InstructionBuilders.LegacyInstructionBuilder.Append | src/CSCI502/Project/Parsing/InstructionBuilder.java:86-88 | adds the instruction at the end of the active segment, or fails when the index names no segment |
| InstructionBuilders.LegacyInstructionBuilder.Mov | src/CSCI502/Project/Parsing/InstructionBuilder.java:78-90 | an immediate destination throws and appends nothing; any other appends MOVE dst, src |
| InstructionBuilders.LegacyInstructionBuilder.Binary | src/CSCI502/Project/Parsing/InstructionBuilder.java:92-138 | ADD, SUB, MUL and DIV append ADD, SUBTRACT, MULTIPLY and DIVIDE on the two registers |
| InstructionBuilders.LegacyInstructionBuilder.Unary | src/CSCI502/Project/Parsing/InstructionBuilder.java:145-165 | PUSH and POP append their opcode on the one register |
| InstructionBuilders.LegacyEmitBeforeSegment | src/CSCI502/Project/Parsing/InstructionBuilder.java:21-26 | before any segment is created every emitter fails on segment 0 and leaves the segments as they were |
| CNodes.IdCounter.constructor | src/Parsing/CNode.java:141 | the shared id counter starts at 0 |
| CNodes.CNode.constructor | src/Parsing/CNode.java:151-161 | a node built from a token has value type Empty, takes the next id and advances the counter, and has no capture, parent, sibling or child |
| CNodes.CNode.Typed | src/Parsing/CNode.java:163-173 | the typed constructor keeps the given value type and otherwise starts a node the same way |
| CNodes.CNode.SetParent | src/Parsing/CNode.java:175 | sets the parent link and changes no other link or the capture |
| CNodes.CNode.SetChild | src/Parsing/CNode.java:176 | sets the first-child link and changes no other link or the capture |
| CNodes.CNode.SetSibling | src/Parsing/CNode.java:177 | sets the sibling link and changes no other link or the capture |
| CNodes.CNode.SetCapture | src/Parsing/CNode.java:178 | sets the capture label and changes no link |
| CNodes.ChainDetermines | src/Parsing/CNode.java:52-62 | the sibling links determine the children: two child sequences read from the same first child are equal |
| CNodes.NumChildren | src/Parsing/CNode.java:52-62 | the loop counts exactly the children reached along the sibling links |
| CNodes.GetChild | src/Parsing/CNode.java:22-28 | walking i sibling links gives child i, the first child for a non-positive i, null just past the last child and a NullPointerException further on |
| CNodes.AddChild | src/Parsing/CNode.java:36-45 | the new node, with any siblings it already links to, becomes the last children of root; the earlier children keep their own children and parents |
| CodeTrees.OpCode | src/Parsing/Productions.java:514-690 | each binary operator's code ends in ADD, SUB, MULT or DIV, with mod dividing and then taking the remainder |
| CodeTrees.Generate | src/Parsing/Productions.java:198-991 | running a node's injected generator appends to the active segment exactly the code the tree's generation function gives, the first exception stopping it, and keeps the active index |
| CodeTrees.GenerateCombine | src/Parsing/Productions.java:514-690 | the moves, the pop and the register operation that end a binary node's code are appended in order |
| CodeTrees.GenerateChild | src/Parsing/Productions.java:202 | generating child i of a node appends that child's code |
| CodeTrees.GenerateEach | src/Parsing/Productions.java:200-203 | the loop over a block's children, or a print's children with a PRNT of R1 after each, appends their code in order |
| CodeTrees.PutAllFailed | src/Parsing/Productions.java:198-991 | once an append has failed, nothing more is appended and the failure stays |
| CodeTrees.FailedEach | src/Parsing/Productions.java:200-203 | once an append has failed, the loop over the remaining children changes nothing |
| CodeTrees.EmitAppendsCode | src/Parsing/Productions.java:198-991 | generating a tree into a valid segment appends exactly the tree's code to that segment and nothing else, or fails when the tree's code does not exist |
| CodeTrees.BinaryAppendsCode | src/Parsing/Productions.java:514-690 | a binary node appends its left operand's code, a PUSH, its right operand's code and then its combination |
| CodeTrees.PowerAppendsCode | src/Parsing/Productions.java:752-766 | a power node appends the exponent's code first, a PUSH, then the base's code, a POP into R3 and the EXP |
| CodeTrees.ChildAppendsCode | src/Parsing/Productions.java:202 | generating child i appends that child's code, or fails when it has none |
| CodeTrees.EachAppendsCode | src/Parsing/Productions.java:391-403 | the loop from child i on appends the children's code in order, with a PRNT of R1 after each when printing |
| CodeTrees.CodeBalancesStack | src/Parsing/Productions.java:198-991 | a tree's code leaves the stack as it found it except that every string literal pushes its text and nothing pops it |
| CodeTrees.AssignNet | src/Parsing/Productions.java:330-339 | an assignment's code pushes only what its value's code does |
| CodeTrees.BinaryNet | src/Parsing/Productions.java:514-690 | a binary node's push is popped by its combination, so it pushes only what its operands push |
| CodeTrees.PowerNet | src/Parsing/Productions.java:752-766 | a power node's push is popped before the EXP, so it pushes only what its operands push |
| CodeTrees.CombineNet | src/Parsing/Productions.java:524-526 | the end of a binary node's code pops exactly one stack entry |
| CodeTrees.EachBalances | src/Parsing/Productions.java:391-403 | the loop over children from i on pushes exactly the string literals of those children |
| Parsers.Read | src/Lexical/BufferedTokenStream.java:33-80 | the next token is handed out and the position advances by one; past the last token nothing is handed out and the end is seen; once the end is seen nothing changes |
| Parsers.ListWellFormed | src/Parsing/Productions.java:198-242 | a block or print node is well formed when each of its children is |
| Parsers.EosError | src/Parsing/Productions.java:109-118 | the end-of-input abort is a ParseException in the live edition and not in the legacy one |
| Parsers.Semicolon | src/Parsing/Productions.java:56-73 | consuming the statement terminator never moves backwards and leaves the symbol table and the failed flag alone |
| Parsers.Paren | src/Parsing/Productions.java:75-97 | a parenthesis that is there is consumed; the check never moves backwards and leaves the symbol table and the failed flag alone |
| Parsers.Separator | src/CSCI502/Project/Parser/Productions.java:85-93 | a comma is consumed and anything else put back; the answer is true exactly for a comma in the live edition, since the legacy one answers false even after consuming a comma |
| Parsers.Skip | src/Parsing/Productions.java:47 | skipping to the next ';' never moves backwards and leaves the symbol table and the failed flag alone |
| Parsers.Discard | src/Parsing/Productions.java:44-49 | discarding a statement only moves forwards, and its only failure is the end-of-input abort |
| Parsers.Varnumeric | src/Parsing/Productions.java:917-958 | an integer, a variable or nothing: a tree comes only after reading a token, is well formed, and the failed flag is kept; each case is stated in `ParserProperties.IntegerOperand`, `BooleanConstantsIgnored`, `UndefinedNameRejected`, `NameOperand` and `OtherTokenIgnored` |
| Parsers.VariableDeref | src/Parsing/Productions.java:960-992 | a variable reference reads its name before answering and yields a well-formed tree; the unregistered-name error and the registered type are stated in `ParserProperties.UndefinedNameRejected` and `NameOperand` |
| Parsers.Join | src/Parsing/Productions.java:135-144 | two operands join under an operator exactly when the right one parsed and has the left one's type; the node has that type and is well formed |
| Parsers.AddSub | src/Parsing/Productions.java:493-599 | an additive expression yields a well-formed tree only after reading at least one token |
| Parsers.AddSubLoop | src/Parsing/Productions.java:505-597 | the loop over '+' and '-' never moves backwards and keeps the tree well formed |
| Parsers.MultDivMod | src/Parsing/Productions.java:601-735 | a multiplicative expression yields a well-formed tree only after reading at least one token |
| Parsers.MulLoop | src/Parsing/Productions.java:613-733 | the loop over '*', '/' and mod never moves backwards and keeps the tree well formed |
| Parsers.Power | src/Parsing/Productions.java:737-816 | a power expression yields a well-formed tree only after reading at least one token |
| Parsers.PowerLoop | src/Parsing/Productions.java:749-814 | the loop over '^' never moves backwards and keeps the tree well formed |
| Parsers.Negatable | src/Parsing/Productions.java:818-915 | a parenthesized, negated, signed or plain operand yields a well-formed tree only after reading a token |
| Parsers.Parenthesized | src/Parsing/Productions.java:829-841 | the inside of parentheses never moves backwards and yields a well-formed tree |
| Parsers.Signed | src/Parsing/Productions.java:842-915 | the operand after a sign never moves backwards and yields a well-formed tree |
| Parsers.StringLiteral | src/Parsing/Productions.java:471-491 | a STRING token, and only that, yields a string literal of its text with type Imm_Str, reading the token; any other token is put back and nothing is answered; at the end of input the null token fails with a NullPointerException |
| Parsers.Rvalue | src/Parsing/Productions.java:456-469 | an rvalue yields a well-formed tree only after reading a token |
| Parsers.Lvalue | src/Parsing/Productions.java:431-454 | an lvalue never throws and yields a well-formed tree only after reading its token |
| Parsers.Assignment | src/Parsing/Productions.java:290-347 | an assignment yields a well-formed tree only after reading at least one token |
| Parsers.AssignFrom | src/Parsing/Productions.java:303-347 | the rest of an assignment, from its lvalue on, answers with the stream ahead of where the assignment began |
| Parsers.AssignEnd | src/Parsing/Productions.java:323-346 | the terminator and the type check never move backwards and give a well-formed assignment |
| Parsers.ClearStatement | src/Parsing/Productions.java:415-429 | clear never answers nothing: it yields a well-formed tree or throws, after reading the keyword |
| Parsers.ClearCall | src/Parsing/Productions.java:419-428 | after the keyword, clear either throws or yields its node |
| Parsers.PrintStatement | src/Parsing/Productions.java:349-413 | print never answers nothing: it yields a well-formed print node or throws, after reading the keyword |
| Parsers.PrintArgs | src/Parsing/Productions.java:362-413 | print's loop keeps the arguments found so far, in order, at the front of the node's children |
| Parsers.PrintNext | src/Parsing/Productions.java:363-386 | one argument turn of print's loop keeps the arguments so far at the front of the node's children |
| Parsers.Argument | src/Parsing/Productions.java:374-381 | an argument is accepted exactly when its rvalue yields a tree, and it is that tree; an exception from the rvalue passes through |
| Parsers.NextArgument | src/Parsing/Productions.java:372-381 | the argument that starts at a token reads at least that token when it succeeds and is well formed |
| Parsers.ArgumentStart | src/Parsing/Productions.java:372-373 | the argument's rvalue starts past a comma, or at the token itself |
| Parsers.PrintEnd | src/Parsing/Productions.java:388-412 | after the loop, the print node has exactly the arguments collected |
| Parsers.Statement | src/Parsing/Productions.java:244-288 | a statement yields a well-formed tree only after reading a token; the live edition never changes the failed flag and the legacy one only sets it |
| Parsers.Attempts | src/Parsing/Productions.java:269-286 | an assignment, else an rvalue, else the fallback: the same guarantees as a statement |
| Parsers.Unparsed | src/Parsing/Productions.java:274-285 | when nothing parses no tree is answered. Live: the statement is discarded and a ParseException is thrown, UNEXPECTED_KEYWORD at the statement's first token unless the discard itself failed. Legacy: with the flag already set nothing happens; otherwise the statement is discarded and, unless that discard fails at the end of input, the flag is set and nothing is answered |
| Parsers.Block | src/Parsing/Productions.java:198-242 | the statement block loop only appends: every statement parsed so far stays a child of the block, which is well formed, the failed flag is never cleared and the log only grows; a statement that answers nothing ends the block (`ParserProperties.EmptyStatementEndsBlock`, `RvalueStatementEndsBlock`) |
| Parsers.Recover | src/Parsing/Productions.java:213-232 | after a statement's ParseException the loop ends; the block returned is the statements so far, and the flag is set in the live edition and whenever the block is returned. Live: the message is reported; at the end of input the block is returned; otherwise the statement is discarded, and if that discard fails its message is reported too and null is answered. Legacy: nothing is reported, and an exception escapes exactly when the discard fails |
| Parsers.Flagged | src/Parsing/Productions.java:161-176 | the scan flags a token exactly when it is a reserved identifier |
| Parsers.Scanned | src/Parsing/Productions.java:161-176 | the scan only adds messages after those it started with |
| Parsers.ScannedReports | src/Parsing/Productions.java:161-176 | the scan adds no message exactly when no scanned token is a reserved identifier |
| Parsers.ScannedStep | src/Parsing/Productions.java:161-176 | the scan of a token sequence is the scan of its first token followed by the scan of the rest |
| Parsers.CommandLine | src/Parsing/Productions.java:153-190 | the command-line entry point stays within the tokens and only adds to the log; a live line without reserved words throws IndexOutOfBoundsException from its rewind once it has five tokens or more (stated by `ParserProperties.CommandLineOverruns`) |
| ParserObjects.Parser.constructor | src/Parsing/Productions.java:153-160 | a parser starts at the first token, before the end, with the flag clear and nothing logged |
| ParserObjects.Parser.Read | src/Lexical/BufferedTokenStream.java:33-80 | hands out the next token and advances by one, or at the end hands out nothing and remembers the end, exactly as the stream function does |
| ParserObjects.Parser.Advance | src/Lexical/BufferedTokenStream.java:33-80 | the cursor's step: a token exactly when one is left and the end is not yet seen, and then the position moves past it |
| ParserObjects.Parser.Unread | src/Lexical/BufferedTokenStream.java:82-88 | putting back the token just read moves the position back by one and changes nothing else |
| ParserObjects.Parser.Rewind | src/Lexical/BufferedTokenStream.java:90-100 | rewinding moves the position to the remembered token and forgets the end |
| ParserObjects.Parser.Varnumeric | src/Parsing/Productions.java:917-958 | the production, run in place, ends in the answer and parser state of the functional varnumeric |
| ParserObjects.Parser.VariableDeref | src/Parsing/Productions.java:960-992 | run in place, ends as the functional variableDeref does |
| ParserObjects.Parser.AddSub | src/Parsing/Productions.java:493-599 | the loop over '+' and '-' ends as the functional addSub does |
| ParserObjects.Parser.MultDivMod | src/Parsing/Productions.java:601-735 | the loop over '*', '/' and mod ends as the functional multDivMod does |
| ParserObjects.Parser.Power | src/Parsing/Productions.java:737-816 | the loop over '^' ends as the functional power does |
| ParserObjects.Parser.Negatable | src/Parsing/Productions.java:818-915 | ends as the functional negatable does |
| ParserObjects.Parser.Parenthesized | src/Parsing/Productions.java:829-841 | the parenthesized case ends as the functional one does |
| ParserObjects.Parser.Signed | src/Parsing/Productions.java:842-915 | the signed cases end as the functional ones do |
| ParserObjects.Parser.Semicolon | src/Parsing/Productions.java:56-73 | ends as the functional terminator check does |
| ParserObjects.Parser.Paren | src/Parsing/Productions.java:75-97 | ends as the functional parenthesis check does |
| ParserObjects.Parser.Separator | src/Parsing/Productions.java:99-107 | answers and ends as the functional separator check does, for either edition |
| ParserObjects.Parser.Discard | src/Parsing/Productions.java:44-49 | the discard loop ends as the functional discard does |
| ParserObjects.Parser.StringLiteral | src/Parsing/Productions.java:471-491 | ends as the functional stringLiteralRef does |
| ParserObjects.Parser.Rvalue | src/Parsing/Productions.java:456-469 | ends as the functional rvalue does |
| ParserObjects.Parser.Lvalue | src/Parsing/Productions.java:431-454 | registers a new name as an Int4 variable in the table and ends as the functional lvalue does |
| ParserObjects.Parser.Assignment | src/Parsing/Productions.java:290-347 | rewinds to its first token when a part is missing and ends as the functional assignment does, keeping any registration the lvalue made |
| ParserObjects.Parser.ClearStatement | src/Parsing/Productions.java:415-429 | ends as the functional clear does |
| ParserObjects.Parser.PrintStatement | src/Parsing/Productions.java:349-413 | ends as the functional print does |
| ParserObjects.Parser.PrintArguments | src/Parsing/Productions.java:358-412 | the argument loop, with its two flags, ends as the functional print loop does |
| ParserObjects.Parser.PrintStep | src/Parsing/Productions.java:362-387 | one pass of the loop either ends it exactly as the functional loop does or yields the next argument with the flags updated |
| ParserObjects.Parser.PrintClose | src/Parsing/Productions.java:388-412 | the ';' after the loop and the print node, as the functional version gives them |
| ParserObjects.Parser.PrintTurn | src/Parsing/Productions.java:363-386 | one turn at an argument's first token: the separator check, then the argument, as the functional turn gives them |
| ParserObjects.Parser.NextArgument | src/Parsing/Productions.java:372-381 | a leading comma stays consumed, anything else is put back, then the argument, as the functional version gives it |
| ParserObjects.Parser.Argument | src/Parsing/Productions.java:374-386 | one argument and the separator after it, as the functional version gives them |
| ParserObjects.Parser.Statement | src/Parsing/Productions.java:244-288 | ends as the functional statement does |
| ParserObjects.Parser.Attempts | src/Parsing/Productions.java:267-286 | an assignment, else an rvalue, else the fallback, as the functional version gives them |
| ParserObjects.Parser.Unparsed | src/Parsing/Productions.java:274-285 | the fallback when nothing parses, as the functional version gives it |
| ParserObjects.Parser.StatementBlock | src/Parsing/Productions.java:198-242 | the block loop ends in the answer, state and log of the functional block |
| ParserObjects.Parser.BlockStep | src/Parsing/Productions.java:211-239 | one pass of the block loop either ends the block as the functional loop does or adds a well-formed statement after reading at least one token |
| ParserObjects.Parser.StatementPass | src/Parsing/Productions.java:215-239 | a statement and the loop's handling of its outcome, as the functional loop gives them |
| ParserObjects.Parser.Recover | src/Parsing/Productions.java:216-232 | the catch ends as the functional recovery does, for either edition |
| ParserObjects.Parser.LiveRecover | src/Parsing/Productions.java:216-232 | the live catch reports the message, sets the flag and discards the rest of the statement, as the functional recovery does |
| ParserObjects.Parser.LegacyRecover | src/CSCI502/Project/Parser/Productions.java:169-203 | the legacy catch discards the rest of the statement and then sets the flag, reporting nothing, as the functional recovery does |
| ParserObjects.Parser.CommandLine | src/Parsing/Productions.java:153-190 | ends in the answer, state and log of the functional command line, the rewind's IndexOutOfBoundsException on a line of five tokens or more included |
| ParserObjects.Parser.ScanReserved | src/Parsing/Productions.java:161-176 | the scan reads to the end, logs one message per reserved identifier in order, and sets the flag exactly when it logged one |
| ParserObjects.Parser.ScanOne | src/Parsing/Productions.java:161-176 | one pass of the scan's do-while loop reports a token and reads the next, keeping the scan's log in step with the functional scan |
| ParserObjects.Parser.Report | src/Parsing/Productions.java:163-172 | reporting one token keeps the scan's log in step with the functional scan and answers whether the token was reserved |
| ParserProperties.LeftChainTransitive | src/Parsing/Productions.java:505-597 | a left spine of operators over a left spine is one left spine |
| ParserProperties.AddSubLoopChains | src/Parsing/Productions.java:505-597 | the '+' and '-' loop only ever puts the tree so far under new operator nodes as their first child |
| ParserProperties.AddSubLeftAssociative | src/Parsing/Productions.java:493-599 | '+' and '-' group to the left: the result is the first multiplicative operand under a left spine of '+' and '-' nodes |
| ParserProperties.MulLoopChains | src/Parsing/Productions.java:613-733 | the '*', '/' and mod loop only ever puts the tree so far under new operator nodes as their first child |
| ParserProperties.MultDivModLeftAssociative | src/Parsing/Productions.java:601-735 | '*', '/' and mod group to the left over power operands |
| ParserProperties.PowerLoopEnds | src/Parsing/Productions.java:749-814 | the '^' loop yields a tree only where no '^' follows |
| ParserProperties.PowerEnds | src/Parsing/Productions.java:737-816 | a whole power expression leaves no '^' behind it |
| ParserProperties.PowerRightAssociative | src/Parsing/Productions.java:737-816 | '^' groups to the right: the result is a single operand, or a power node whose left child is that operand and whose right child is a whole power expression parsed after the '^' |
| ParserProperties.ReservedWordRejected | src/Parsing/Productions.java:244-288 | a statement that starts with a reserved word other than print yields no tree: the live edition throws a ParseException, the legacy one sets its flag |
| ParserProperties.RewoundAssignmentRegisters | src/Parsing/Productions.java:290-301 | a new name not followed by '<-' is registered as a variable even though the assignment gives up and rewinds the stream |
| ParserProperties.NameOperand | src/Parsing/Productions.java:960-992 | a registered name parses as a variable operand of its registered type, reading one token |
| ParserProperties.UndefinedNameRejected | src/Parsing/Productions.java:974-981 | an unregistered identifier that is not reserved, `true` or `false` throws UNDEFINED_SYMBOL (SYMBOL_REF) at that identifier, after reading it |
| ParserProperties.BooleanConstantsIgnored | src/Parsing/Productions.java:938-949 | `true` and `false` are read and give no operand |
| ParserProperties.IntegerOperand | src/Parsing/Productions.java:924-936 | an INTEGER token is read and gives an Int4 literal of its parsed value, or the NumberFormatException of its text |
| ParserProperties.OtherTokenIgnored | src/Parsing/Productions.java:917-958 | a token that is neither INTEGER nor IDENT is read and gives no operand |
| ParserProperties.EmptyStatementEndsBlock | src/Parsing/Productions.java:209-241 | a ';' or a comment where a statement begins is read and ends the block, which holds only the statements before it |
| ParserProperties.RvalueStatementEndsBlock | src/Parsing/Productions.java:209-241 | an rvalue statement leaves its ';' unread, so that ';' ends the block right after the rvalue, whatever follows |
| ParserProperties.OperandBeforeSemicolon | src/Parsing/Productions.java:456-469 | an operand followed by ';' is the whole rvalue |
| ParserProperties.UnassignedNameAccepted | src/Parsing/Productions.java:244-347 | a statement made of a never-assigned name and ';' is accepted: the name is registered and read as an Int4 variable |
| ParserProperties.StringRvalue | src/Parsing/Productions.java:316-328 | an assignment whose right side is a string literal fails the type check |
| ParserProperties.StringAssignmentRejected | src/Parsing/Productions.java:290-347 | storing a string in a variable is a type mismatch in both editions |
| ParserProperties.BlockCatchesParseErrors | src/Parsing/Productions.java:198-242 | no ParseException escapes a statement block in either edition; only what recovery itself throws can leave |
| ParserProperties.LiveFailuresReported | src/Parsing/Productions.java:213-232 | in the live edition a block sets the parse-failed flag exactly when it reports a message |
| ParserProperties.CommandLineRejectsReserved | src/Parsing/Productions.java:161-178 | a reserved word anywhere on the command line makes it answer nothing, set the flag, read to the end and report at least one message |
| ParserProperties.CommandLineParsesStatement | src/Parsing/Productions.java:178-190 | without reserved words a command line of one to four tokens is rewound to its start, parses one statement and turns its ParseException into a report |
| ParserProperties.CommandLineOverruns | src/Parsing/Productions.java:178-190 | without reserved words a command line of five tokens or more throws IndexOutOfBoundsException from the rewind, which the ParseException handler does not catch; nothing is reported, the flag is unchanged and the stream stays at its end |
| ParserProperties.EndOfInputInStatement | src/Parsing/Productions.java:109-118 | a statement cut short by the end of input: the live block reports it and keeps the statements before it; in the legacy edition the exception leaves the block |

## Left out

- Console and input devices: the `JTextArea` console is a string that output is appended to. The live `InputChannel` and the legacy file and `JTextField` inputs are the sequence of characters they deliver. Logging through `java.util.logging` is not modelled.
- `Analyzer.cleanup` closes the input channel. It is pure I/O and is not modelled.
- `CNode.printCodeTree`, `Token.toString` and `DataType.toString` (apart from the type names the error messages use) only format text for display.
- CNode ids come from an unbounded counter passed in explicitly. Java's static `nextId` would wrap after 2^31 nodes, which the model does not reproduce.
- Static singletons (`SymbolTable`, `StaticVariableStorage`, `CNode.nextId`) are explicit objects or values passed to the code that uses them.
- The injected code closures of `CNode` are named by the node's kind (`CodeTrees.Kind`). The parser builds trees as values, and `CNode` models the linked node objects separately.
- Parsers: the parser works on a cursor over the analyzer's tokens, a position and an end flag. `mark`, `unmark` and the stream's bounded buffer are modelled in `TokenStreams` but not used by the parser model. Rewinding is a return to the remembered position, with one exception. A rewind that follows a fetch of NONE on a buffer of five tokens or more reads past the buffer and throws IndexOutOfBoundsException. The live `commandLine` is the only production that rewinds after reading to the end, and `Parsers.CommandLine` reproduces its exception, which `TokenStreams.CommandLineScan` derives from the buffer model. The assignment's rewinds never follow a read of the end of input, because every null read inside an assignment throws first, either from `getId()` on the null token or from the end-of-input check.
- Parsers: the parser's token sequence must carry text for every token (`Lexed`), which is what the analyzer's `createToken` always produces.
- The legacy parser's `Interface.SymbolTable` and its own `CompilerErrors` are not part of this model. Their effect is modelled with the name-keyed catalog and `CompilerErrors.LegacyFormat`.
- The legacy machine's `VariableStorage` and `SymbolTable.getVariableParams` are not part of this model. Because the legacy `MOVE` fails on the register cast before it reaches them, no register ever holds a variable reference (`LegacyMachines.Reachable`).
- The legacy `ExecLib/InstructionBuilder.java` is a stub whose emitters only return `this`, and its `Parsing/Productions.java` counterpart throws from every production; neither is modelled.
- InstructionBuilders: `READ` in the live builder and `NEG`, `PRINT` and `READ` in the legacy builder append nothing and return the builder. `getActiveCodeSegmentId` returns the index field, and `createStrLiteral` returns 0. These are not separate members.
- JavaInt.ParseInt: models `Integer.parseInt` on unsigned digit strings only, because INTEGER tokens never carry a sign.
- Parsers.Separator: the difference between the editions is stated for the separator itself. A full legacy `print` scenario through the argument loop is not proved.
- The analyzer's recovery code after a second `unread` on an UNKNOWN state is unreachable, because that `unread` always throws. It is not modelled.
- LegacyMachines: the legacy `ExecLib.Operand` has no register constructor, and its `getEnclosed` answers null for everything but the two immediates, while the legacy `VirtualMachine` casts that answer to `Register` and calls `id()`. Taken literally, every register operand would fail with a NullPointerException. The model assumes a register operand carries its register (`Instructions.Enclosed`), as the live `Operand` does. The legacy `ExecLib.DataType` and `ExecLib.VariableStorage` are not part of this model; the live `DataTypes` stands in for the first.
- Parsers: the legacy parser imports its own lexical `Token` and token-stream classes, which are not part of this model. It runs here over the live token values and the live `BufferedTokenStream` behaviour.
- `Token.NONE` and `Token.UNKNOWN` are process-wide objects in Java. They are modelled as sentinel token values, whose identity is never compared.
- `Math.pow` on ints is modelled exactly on integers and then saturated as the double-to-int cast does (`JavaInt.Saturate`), not through floating point.
- Regular expressions in the state table are a small `Patterns.Pattern` datatype with a meaning for each class the table uses, not a regex engine.
