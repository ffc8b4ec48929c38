# A statically typed script compiler and its stack machine, in Dafny

This project models the compiler pipeline of a small statically typed
scripting language (`let x: int = ...;`, `while`, `if`/`else if`/`else`,
`break`, `print`, assignments, integer, float and boolean expressions) and
proves properties of it. The pipeline has four stages:
- **Lexer**: a single forward scan over the source text that tracks position,
  line and column.
- **Parser**: a recursive-descent parser over the token list.
- **Semantic analyzer**: scoped static type checking.
- **Code generator**: lowers the syntax tree to a flat list of stack-machine
  instructions and label markers.

That list is run by the **SAM virtual machine**, which has an operand stack,
1024 memory cells and a program counter.

Each stage that the source writes as an object with fields updated in place
is modelled as a Dafny `class` with the same fields and methods. Next to it
sits a module of functions that specifies the stage:

| class | specifying module |
|---|---|
| `Lexer.Lexer` | the functions `Scan`, `NextUnit` and `TokenAt` of module `Lexer` |
| `Parser.Parser` | `Grammar` |
| `Analyzer.SemanticAnalyzer` | `Typing` |
| `CodeGen.CodeGenerator` | `Lowering` |
| `Vm.SAMVirtualMachine` | `Machine` |

Every method is proved to compute what its specifying function says. This
covers the result, the new state, and the error on each failure path. The
properties of the stages are proved as lemmas about those functions, in
these modules:
- `GrammarFacts`: precedence, left associativity and the shape of
  else-chains.
- `TypingFacts`: scoping and the rejection of a `break` outside a loop.
- `LoweringFacts`: every jump of a generated program finds exactly one
  label marker.
- `SlotFacts`: every declaration gets a fresh memory slot, so no two
  variables share one.
- `MachineFacts`: the effect of each opcode.
- `ExprSemantics`: running an expression's code pushes the expression's
  value.

Every stage stops at its first error. Each error is a value of the stage's
error datatype (`LexError`, `ParseError`, `SemanticError`, `GenError`,
`VmError`) returned in a `Result`.

Runtime values are integers. Booleans are 0 and 1, and floats survive only as
a static type and as a literal's text.

Where the documented design and the code differ, the model follows the code:
- A bare `{ ... }` block is not a statement. A program that starts with `{`
  is a parse error, not a scope of its own (`Grammar.StatementAt`).
- `AND` and `OR` push Python's `int(a and b)` and `int(a or b)`. These are
  guaranteed to be 0 or 1 when both operands are (`MachineFacts.BooleanResults`).
  `LT`, `GT`, `EQ` and `NOT` always push 0 or 1.
- `HALT` sets the counter to the program's length, and the loop then adds
  one. A run that halts therefore ends with the counter one past the end
  (`MachineFacts.HaltStops`).
- A line comment does not advance the column.
- A string literal never becomes a token. Its token kind is not defined, so
  even a terminated string is a lexing error.
- Slot assignment, `!=` and the top-level statement list behave as listed
  under Findings below.

## Model

| member | source | states |
|---|---|---|
| `Lexer.Classify` | src/lexer.py:102-109 | the six keywords map to their own kind; a word is BOOL_LITERAL iff it is `true` or `false`, TYPE iff it is `int`, `float` or `bool`, IDENTIFIER iff it is none of these |
| `Lexer.SymbolAt` | src/lexer.py:145-204 | maximal munch: when the character and the next one form `==`, `<=`, `>=`, `!=`, the or-operator or `&&`, the two-character token wins; there is no token exactly when the character is no one-character symbol and starts no two-character one (a lone bar or `&`) |
| `Lexer.OperatorChars` | src/lexer.py:151-204 | a two-character operator is `=`, `<`, `>` or `!` followed by `=`, or a doubled bar or `&`; a one-character symbol is exactly one of the fourteen characters of punctuation and operators; every two-character operator but the doubled ones extends a one-character one |
| `Lexer.ColumnAfter` | src/lexer.py:81-88 | stepping over text from a column of at least 1 leaves the column at least 1 |
| `Lexer.ColumnAfterNoNewline` | src/lexer.py:81-88 | stepping over text without a newline advances the column by the text's length |
| `Lexer.ColumnAfterLastNewline` | src/lexer.py:81-88 | after the last newline the column restarts at 1 and counts the characters that follow it |
| `Lexer.WordWellFormed` | src/lexer.py:94-111 | a scanned word's token is not end-of-input or a number, and is well formed (a bool literal's lexeme is true/false, a type's a type name) |
| `Lexer.NumberWellFormed` | src/lexer.py:113-126 | a run of digits with at most one dot is an INT_LITERAL of digits only, or a FLOAT_LITERAL with exactly one dot |
| `Lexer.SymbolWellFormed` | src/lexer.py:145-204 | a symbol's token is neither end-of-input nor a literal, word or type kind |
| `Lexer.SpaceEnd` | src/lexer.py:81-88 | the end of the maximal whitespace run: every character before it is whitespace, and it is the end or a non-space |
| `Lexer.CommentEnd` | src/lexer.py:90-92 | the first newline at or after the start, or the end of the text when there is none |
| `Lexer.IdentEnd` | src/lexer.py:97-99 | the end of the maximal run of letters, digits and underscores |
| `Lexer.NumberRun` | src/lexer.py:117-123 | scanning digits and dots ends at the first other character, having seen at most one dot, or fails at a dot when one was already seen; every character before the stop is a digit or dot |
| `Lexer.NumberRunOf` | src/lexer.py:117-123 | conversely, a run of digits and dots with at most one dot that ends at a non-number character is NumberRun's result, and a dot after a run holding one dot is its error |
| `Lexer.TokenAt` | src/lexer.py:70-204 | a scanned token advances the cursor on its line, the column moving by the characters consumed |
| `Lexer.TokenAtDispatch` | src/lexer.py:70-204 | the first character decides: a letter or `_` gives the classified maximal identifier run; a digit the maximal digit-and-dot run as FLOAT_LITERAL iff it holds a dot, or InvalidNumber at a second dot; a quote always an error, UnterminatedString iff no closing quote follows on the line; anything else the maximal-munch symbol or UnexpectedChar at the start column |
| `Lexer.TokenAtWellFormed` | src/lexer.py:94-204 | a scanned token is well formed and not end-of-input |
| `Lexer.NextUnit` | src/lexer.py:59-79 | one unit always advances the cursor and yields at most one token; line and column stay positive |
| `Lexer.NextUnitDispatch` | src/lexer.py:59-79 | whitespace gives no token and ends after the run with the line grown by its newlines; a `//` comment gives no token, stops at the next newline or the end and keeps line and column; anything else gives TokenAt's token or error |
| `Lexer.NextUnitWellFormed` | src/lexer.py:59-79 | the tokens of one unit are well formed and none is end-of-input |
| `Lexer.ScanFrom` | src/lexer.py:52-57 | scanning on from a cursor keeps the tokens already collected as a prefix and adds at least the end token |
| `Lexer.ScanFromShape` | src/lexer.py:52-57 | a successful scan ends with an end-of-input token with an empty lexeme, holds no earlier one, and every token is well formed |
| `Lexer.ScanShape` | src/lexer.py:45-57 | the same for the whole text from line 1, column 1 |
| `Lexer.Lexer.constructor` | src/lexer.py:46-50 | a new lexer starts at position 0, line 1, column 1 |
| `Lexer.Lexer.Peek` | src/lexer.py:206-209 | yields the character after the current one exactly when there is one |
| `Lexer.Lexer.Tokenize` | src/lexer.py:52-57 | returns exactly ScanFrom from the lexer's starting cursor, error included; on success the whole input is consumed and the last token is end-of-input at the final line and column |
| `Lexer.Lexer.GetNextToken` | src/lexer.py:59-79 | computes NextUnit from the current cursor: the same tokens and new cursor, or the same error; whitespace and a `//` comment give no token |
| `Lexer.Lexer.ConsumeToken` | src/lexer.py:70-79 | computes TokenAt from the current cursor: the same token and new cursor, or the same error; a token is well formed and not end-of-input |
| `Lexer.Lexer.ConsumeWhitespace` | src/lexer.py:81-88 | stops at SpaceEnd, the end of the maximal whitespace run; the line grows by its number of newlines and the column is as ColumnAfter says (reset to 1 by a newline, else +1) |
| `Lexer.Lexer.ConsumeComment` | src/lexer.py:90-92 | stops at CommentEnd, the next newline (not consumed) or the end; line and column are unchanged |
| `Lexer.Lexer.ConsumeIdentifier` | src/lexer.py:94-111 | stops at IdentEnd, the end of the maximal run of letters, digits and underscores; the token's lexeme is exactly that slice, its kind Classify of it and its column the starting column |
| `Lexer.Lexer.ConsumeNumber` | src/lexer.py:113-126 | stops where NumberRun says: at the end of the maximal run of digits and dots, as FLOAT_LITERAL iff the run holds a dot, or at a second dot with InvalidNumber at that dot's column |
| `Lexer.Lexer.ConsumeString` | src/lexer.py:128-143 | always fails; UnterminatedString exactly when no closing quote follows on the same line, and otherwise because the string token kind is undefined |
| `Lexer.Lexer.ConsumeSymbol` | src/lexer.py:145-204 | agrees with SymbolAt: the token's kind and length are the maximal-munch symbol, its lexeme the consumed slice; no symbol is UnexpectedChar at the start column |
| `Lexer.Lex` | src/lexer.py:45-57 | a fresh lexer returns exactly Scan of the text, error included; its output ends with one end-of-input token, holds no other, and every token is well formed |
| `Numerals.Digits` | src/code_gen.py:47 | a number's decimal text is a non-empty digit string, one digit long exactly below 10 |
| `Numerals.DecimalValueOfDigits` | src/code_gen.py:45-47 | reading back a number's decimal text gives the number |
| `Numerals.DigitsInjective` | src/code_gen.py:45-47 | distinct numbers have distinct decimal texts |
| `Grammar.LexedTokensValid` | src/parser.py:65-67 | the lexer's output (ending in end-of-input, every token well formed) is valid parser input |
| `Grammar.AdvanceAt` | src/parser.py:248-254 | advance moves the cursor forward by one except at end-of-input, where it stays; the cursor stays a valid index |
| `Grammar.ConsumeAt` | src/parser.py:238-246 | succeeds iff the current token has the expected kind (never at end-of-input), returning it and the cursor one further; otherwise fails at the current token |
| `Grammar.LevelKinds` | src/parser.py:163-207 | the kinds each binary level tries are exactly the operators of that level |
| `Grammar.OpLevel` | src/parser.py:160-207 | every binary operator belongs to one of the six levels |
| `Grammar.LevelOpHasLevel` | src/parser.py:160-207 | a token that is an operator at a level denotes an operator of that level |
| `Grammar.ExprAt` | src/parser.py:160-161 | a parsed expression consumes at least one token and leaves the cursor on a token of the list |
| `Grammar.LevelAt` | src/parser.py:163-207 | a binary level consumes at least one token and stays in bounds |
| `Grammar.NextLevelAt` | src/parser.py:163-207 | a level's operand consumes at least one token and stays in bounds |
| `Grammar.LevelRest` | src/parser.py:165-167 | a level's operator loop never moves the cursor back or out of bounds |
| `Grammar.UnaryAt` | src/parser.py:209-214 | a unary expression consumes at least one token |
| `Grammar.PrimaryAt` | src/parser.py:216-229 | a primary starts with a literal, an identifier or `(`, and anything else is an error at that token; a bool literal's value is `lexeme == "true"`; a non-parenthesised primary is one literal or identifier token |
| `Grammar.StatementsAt` | src/parser.py:75-79 | a statement list stops, without consuming it, at end-of-input or a `}` |
| `Grammar.StatementAt` | src/parser.py:81-95 | a statement starts with `let`, `while`, `if`, `break`, `print` or an identifier, and any other first token is an error at that token |
| `Grammar.VariableDeclAt` | src/parser.py:97-104 | a successful declaration parse yields a VariableDecl and advances |
| `Grammar.ConditionBlockAt` | src/parser.py:107-110 | a parenthesised condition and block consume at least one token |
| `Grammar.WhileLoopAt` | src/parser.py:106-111 | a successful while parse yields a WhileLoop and advances |
| `Grammar.IfStatementAt` | src/parser.py:113-119 | a successful if parse yields an IfStatement and advances |
| `Grammar.ElseIfListAt` | src/parser.py:121-134 | the clause list never moves the cursor back or out of bounds |
| `Grammar.PrintStatementAt` | src/parser.py:140-145 | a successful print parse yields a PrintStatement and advances |
| `Grammar.AssignmentAt` | src/parser.py:147-152 | a successful assignment parse yields an AssignmentStmt to the current identifier |
| `Grammar.BlockAt` | src/parser.py:154-158 | a block begins with `{` and ends with `}`; without a leading `{` it fails at the current token |
| `Grammar.ParseProgramAsWritten` | src/parser.py:69-73 | the program succeeds exactly when its statement list does, wherever that list stops |
| `Grammar.ParseProgram` | src/parser.py:69-73 | corrected: succeeds exactly when the statement list reaches end-of-input, and then agrees with the original; a list that stops at a stray `}` is an error at that brace |
| `GrammarFacts.ExprTight` | src/parser.py:160-207 | an expression without parentheses respects precedence (or < and < equality < relational < additive < multiplicative) and associates to the left |
| `GrammarFacts.LevelTight` | src/parser.py:163-207 | each binary level builds a tree whose operators are of that level or tighter, with right operands strictly tighter |
| `GrammarFacts.NextLevelTight` | src/parser.py:163-207 | an operand of a level is built from tighter levels only |
| `GrammarFacts.LevelRestTight` | src/parser.py:165-167 | folding operators of one level to the left keeps the tree tight at that level |
| `GrammarFacts.UnaryTight` | src/parser.py:209-214 | a unary expression without parentheses holds no binary operator |
| `GrammarFacts.UnaryStep` | src/parser.py:209-214 | a prefix `-` or `!` applies to the unary expression after it, so prefix operators nest to the right |
| `GrammarFacts.PrimaryStep` | src/parser.py:216-224 | without a prefix operator or parenthesis a unary expression is a literal or an identifier |
| `GrammarFacts.ElseIfListChain` | src/parser.py:121-134 | the clause list holds `else if` clauses with empty clause lists of their own, and at most one `else`, which comes last |
| `GrammarFacts.IfStatementChain` | src/parser.py:113-134 | an if statement's clauses form such a chain |
| `GrammarFacts.LooserLevels` | src/parser.py:160-207 | an operand not followed by a binary operator is the whole result of every looser level |
| `GrammarFacts.LooserStep` | src/parser.py:163-207 | an operand not followed by this level's operator is all this level parses |
| `GrammarFacts.IntExpression` | src/parser.py:160-218 | an integer literal followed by no binary operator parses to its decimal value |
| `GrammarFacts.IntOperand` | src/parser.py:201-218 | an integer literal not followed by `*` or `/` is a whole multiplicative operand |
| `GrammarFacts.LevelRestStep` | src/parser.py:193-199 | one turn of a level's loop folds the operator and the next operand into the left operand |
| `GrammarFacts.LevelGroupsLeft` | src/parser.py:163-207 | `a o1 b o2 c` with two operators of one level parses as `(a o1 b) o2 c` |
| `GrammarFacts.SubtractionAssociatesLeft` | src/parser.py:193-199 | `1 - 2 - 3` parses as `(1 - 2) - 3` |
| `GrammarFacts.LeadingBrace` | src/parser.py:72-79 | a program whose first token is `}`: the original rule accepts it as empty, the corrected one rejects the brace |
| `GrammarFacts.StrayBraceTruncates` | src/parser.py:72-79 | `} print(1);` is accepted as the empty program as written, and rejected at the brace by the corrected rule |
| `Parser.ElseIfClauseStep` | src/parser.py:124-129 | after `else if`, the clause list fails with the condition's or block's error, or continues with the new clause appended |
| `Parser.ElseClauseStep` | src/parser.py:130-133 | after a bare `else`, the clause list fails with the block's error or ends with the `else` clause appended |
| `Parser.Parser.constructor` | src/parser.py:65-67 | a new parser's cursor is at the first token |
| `Parser.Parser.IsAtEnd` | src/parser.py:253-254 | true iff the current token is end-of-input |
| `Parser.Parser.Peek` | src/parser.py:256-257 | the current token |
| `Parser.Parser.Previous` | src/parser.py:259-260 | the token before the cursor (the last one at cursor 0, as a negative index is) |
| `Parser.Parser.Check` | src/parser.py:243-246 | true iff not at end-of-input and the current token has the kind |
| `Parser.Parser.Advance` | src/parser.py:248-251 | moves as AdvanceAt (never past end-of-input) and returns the token before the new cursor |
| `Parser.Parser.Match` | src/parser.py:231-236 | takes the current token iff it is not end-of-input and its kind is among those tried, advancing exactly one |
| `Parser.Parser.Consume` | src/parser.py:238-241 | agrees with ConsumeAt: the expected token and one step, or an error at the current token |
| `Parser.Parser.Expression` | src/parser.py:160-161 | computes ExprAt: same tree, same cursor, same error |
| `Parser.Parser.BinaryLevel` | src/parser.py:163-207 | each of `or_expr` ... `multiplicative` computes LevelAt, its loop folding operators to the left |
| `Parser.Parser.Operand` | src/parser.py:164-202 | a level's operand computes NextLevelAt |
| `Parser.Parser.Unary` | src/parser.py:209-214 | computes UnaryAt |
| `Parser.Parser.Primary` | src/parser.py:216-229 | computes PrimaryAt |
| `Parser.Parser.Parenthesised` | src/parser.py:225-229 | the last alternatives of primary compute PrimaryAt |
| `Parser.Parser.StatementList` | src/parser.py:75-79 | its loop computes StatementsAt |
| `Parser.Parser.Statement` | src/parser.py:81-95 | computes StatementAt |
| `Parser.Parser.VariableDeclaration` | src/parser.py:97-104 | computes VariableDeclAt |
| `Parser.Parser.ConditionBlock` | src/parser.py:107-110 | computes ConditionBlockAt |
| `Parser.Parser.WhileLoop` | src/parser.py:106-111 | computes WhileLoopAt |
| `Parser.Parser.IfStatement` | src/parser.py:113-119 | computes IfStatementAt |
| `Parser.Parser.ElseIfList` | src/parser.py:121-134 | its loop computes ElseIfListAt |
| `Parser.Parser.ElseClause` | src/parser.py:124-133 | one turn of that loop: fails as ElseIfListAt does, ends it after an `else`, or continues further on |
| `Parser.Parser.PrintStatement` | src/parser.py:140-145 | computes PrintStatementAt |
| `Parser.Parser.Assignment` | src/parser.py:147-152 | computes AssignmentAt |
| `Parser.Parser.Block` | src/parser.py:154-158 | computes BlockAt |
| `Parser.Parser.ParseProgram` | src/parser.py:69-73 | computes the corrected Grammar.ParseProgram |
| `Parser.Parse` | src/parser.py:64-73 | a fresh parser computes Grammar.ParseProgram |
| `Typing.Lookup` | src/parser.py:291-295 | a type is found iff some scope declares the name, and it is the type of the innermost such declaration |
| `Typing.Declare` | src/parser.py:286-289 | fails with AlreadyDeclared iff the innermost scope has the name; otherwise binds it there and changes no outer scope |
| `Typing.TypeOf` | src/parser.py:352-394 | an Undeclared error names a name the expression reads that no scope declares |
| `Typing.CheckStmt` | src/parser.py:301-349 | a statement changes only the innermost scope and only by adding bindings; statements other than declarations (directly or as if-clauses) change nothing |
| `Typing.CheckBlock` | src/parser.py:329-333 | a body's scope is dropped afterwards: the scopes are as before |
| `Typing.CheckStmts` | src/parser.py:297-299 | a statement list changes only the innermost scope, by adding bindings |
| `Typing.CheckProgram` | src/parser.py:268-270 | an accepted program leaves exactly the one global scope it was checked in |
| `TypingFacts.TypedNamesDeclared` | src/parser.py:387-391 | an expression that type-checks reads only declared names |
| `TypingFacts.TypeOfShape` | src/parser.py:352-394 | operands have equal types; arithmetic needs int/float and keeps the type; comparisons need int/float and give bool; equality gives bool; the and- and or-operators need bool; `-` needs int/float; `!` needs bool; an identifier has its innermost declared type |
| `TypingFacts.LookupAfterDeclare` | src/parser.py:286-295 | after a declaration the name resolves to the new type and other names as before |
| `TypingFacts.ShadowingAllowed` | src/parser.py:286-289 | a name declared in an outer scope may be declared again in a new inner scope |
| `TypingFacts.RedeclarationRejected` | src/parser.py:286-305 | two declarations of one name anywhere in the same statement list, at any distance, are rejected |
| `TypingFacts.DeclaredRejected` | src/parser.py:286-305 | once the innermost scope has a name, a later declaration of it in the same list is rejected |
| `TypingFacts.DeclarationRule` | src/parser.py:301-305 | a declaration is accepted iff its initializer has the declared type and the innermost scope lacks the name; then the name resolves to that type and the initializer read only names declared before; a type mismatch is DeclarationMismatch |
| `TypingFacts.AssignmentRule` | src/parser.py:335-342 | an assignment is accepted iff its target is declared in some scope and the value has the target's type; it changes no scope; an undeclared target is Undeclared |
| `TypingFacts.ConditionRule` | src/parser.py:307-327 | a while or if condition of a type other than bool is ConditionNotBool; a loop is accepted iff its condition is bool and its body is, one loop deeper; an if iff its condition is bool and its body and clauses are |
| `TypingFacts.PrintUnchecked` | src/parser.py:348-349 | a print statement is accepted whatever its expression, and changes nothing |
| `TypingFacts.FreeBreakRejected` | src/parser.py:344-346 | outside every loop, a statement holding a `break` not inside a while loop is rejected |
| `TypingFacts.FreeBreakInRejected` | src/parser.py:344-346 | outside every loop, a statement list holding such a `break` is rejected |
| `TypingFacts.FreeBreakProgramRejected` | src/parser.py:268-270 | a program whose top level holds such a `break` is rejected |
| `TypingFacts.BreakInLoopAccepted` | src/parser.py:307-316 | `break` directly in a while body with a bool condition is accepted and leaves the scopes as they were |
| `Analyzer.SemanticAnalyzer.constructor` | src/parser.py:263-266 | one empty global scope, loop depth 0 |
| `Analyzer.SemanticAnalyzer.EnterScope` | src/parser.py:280-281 | pushes one empty scope |
| `Analyzer.SemanticAnalyzer.ExitScope` | src/parser.py:283-284 | pops the innermost scope |
| `Analyzer.SemanticAnalyzer.Declare` | src/parser.py:286-289 | updates the scopes as Typing.Declare, and on AlreadyDeclared leaves them unchanged |
| `Analyzer.SemanticAnalyzer.Lookup` | src/parser.py:291-295 | its reverse search computes Typing.Lookup |
| `Analyzer.SemanticAnalyzer.VisitExpr` | src/parser.py:352-394 | computes Typing.TypeOf, error included |
| `Analyzer.SemanticAnalyzer.VisitStmt` | src/parser.py:301-349 | succeeds iff Typing.CheckStmt does, with its error and its new scopes; the loop depth is restored |
| `Analyzer.SemanticAnalyzer.VisitBlock` | src/parser.py:329-333 | computes Typing.CheckBlock: scope entered and left, so the scopes are as before |
| `Analyzer.SemanticAnalyzer.VisitAll` | src/parser.py:297-299 | computes Typing.CheckStmts |
| `Analyzer.SemanticAnalyzer.Analyze` | src/parser.py:268-270 | accepts iff Typing.CheckStmts does, with the same error |
| `Analyzer.Analyze` | src/parser.py:262-270 | a fresh analyzer accepts exactly the programs Typing.CheckProgram accepts, with the same first error |
| `Lowering.OperatorCode` | src/code_gen.py:111-139 | every operator but `!=` lowers exactly as the source writes it (`<=` as PUSH 1, ADD, LT; `>=` as PUSH 1, SUB, GT); `!=` is corrected to EQ, NOT |
| `Lowering.OperatorCodeAsWritten` | src/code_gen.py:111-139 | the source's operator chain: no instruction exactly for `!=`, and straight-line instructions (no jump, no marker) for every other operator |
| `Lowering.UnaryCode` | src/code_gen.py:142-149 | a unary operator's code is straight-line and ends with SUB for `-` (after PUSH 0, SWAP) and with NOT for `!` |
| `Lowering.LiteralOperand` | src/code_gen.py:154-155 | an integer literal pushes its value, a boolean 1 for true and 0 for false, and exactly a float literal pushes its text |
| `Lowering.ExprCode` | src/code_gen.py:111-155 | an expression has code iff every name it reads has a slot; otherwise the error names one unknown name it reads |
| `Lowering.DeclareSlot` | src/code_gen.py:53-56 | corrected: a declaration binds the name to the next slot not yet handed out and bumps the count; for a name not yet in the table, while no name was redeclared, this is the source's slot |
| `Lowering.DeclareSlotAsWritten` | src/code_gen.py:55 | as written: the name is bound to the table's size, and the table grows only when the name is new |
| `Lowering.GenStmt` | src/code_gen.py:53-164 | a statement never lowers the label counter, and no name becomes unbound |
| `Lowering.GenWhile` | src/code_gen.py:58-76 | the same for a while loop |
| `Lowering.GenIf` | src/code_gen.py:78-105 | the same for an if statement and its clauses |
| `Lowering.GenStmts` | src/code_gen.py:49-51 | the same for a statement list |
| `Lowering.GenClauses` | src/code_gen.py:90-103 | the same for an if statement's clauses |
| `Lowering.GenClause` | src/code_gen.py:91-103 | the same for one clause |
| `Lowering.GenElseIf` | src/code_gen.py:95-103 | the same for one `else if` clause |
| `Lowering.Generate` | src/code_gen.py:26-29 | a generated program is non-empty and ends with HALT |
| `LoweringFacts.LabelRoundTrip` | src/code_gen.py:45-47 | the number a label name was made from can be read back from it |
| `LoweringFacts.LabelNamesDistinct` | src/code_gen.py:45-47 | labels made from distinct counter values are distinct |
| `LoweringFacts.MarkerOfMatches` | src/sam_vm.py:109-113 | the marker `"Lk:"` is matched by the label search exactly for the operand naming label k |
| `LoweringFacts.CountedIsFound` | src/sam_vm.py:109-114 | a label that has a marker in the program is found |
| `LoweringFacts.ExprCodeStraight` | src/code_gen.py:111-155 | expression code holds no jump and no marker |
| `LoweringFacts.GenWhileParts` | src/code_gen.py:58-76 | a while loop lowers to exactly `JMP s; s:; cond; JZ e; body; JMP s; e:`, with two fresh labels, the body lowered with `e` pushed on the loop-end stack |
| `LoweringFacts.WhileLabelled` | src/code_gen.py:58-76 | a while loop's fragment places each label it created exactly once and jumps only to them or to an enclosing loop's end |
| `LoweringFacts.WhileCase` | src/code_gen.py:58-76 | a lowered while loop is well labelled for the counter values it used |
| `LoweringFacts.GenIfParts` | src/code_gen.py:78-105 | an if statement lowers to `cond; JZ n; body; JMP end; n:; clauses; end:` |
| `LoweringFacts.IfLabelled` | src/code_gen.py:78-105 | an if statement's fragment is well labelled given its body's and its clauses' |
| `LoweringFacts.IfCase` | src/code_gen.py:78-105 | a lowered if statement is well labelled |
| `LoweringFacts.GenElseIfParts` | src/code_gen.py:95-103 | an `else if` clause lowers to `cond; JZ n; body; JMP end; n:` |
| `LoweringFacts.ClauseLabelled` | src/code_gen.py:95-103 | an `else if` clause's fragment is well labelled, its exit jumping to the shared end label |
| `LoweringFacts.ElseIfCase` | src/code_gen.py:95-103 | a lowered `else if` clause is well labelled |
| `LoweringFacts.SimpleCase` | src/code_gen.py:151-164 | declarations, assignments, prints and `break` emit no marker and create no label; `break` jumps to an enclosing loop's end |
| `LoweringFacts.GenStmtLabelled` | src/code_gen.py:53-164 | every lowered statement is well labelled for the counter values it used |
| `LoweringFacts.GenStmtsLabelled` | src/code_gen.py:49-51 | every lowered statement list is well labelled |
| `LoweringFacts.GenClausesLabelled` | src/code_gen.py:90-103 | every lowered clause list is well labelled, with the if's end label as an extra jump target |
| `LoweringFacts.GenClauseLabelled` | src/code_gen.py:91-103 | every lowered clause is well labelled likewise |
| `LoweringFacts.GenerateLabelsResolve` | src/code_gen.py:26-160 | in a generated program no label is placed twice, and every JMP and JZ names a label placed exactly once, so the machine's label search succeeds |
| `SlotFacts.DeclareSlotFresh` | src/code_gen.py:53-56 | corrected: a declaration's slot is above every slot bound before it and so shared with no name; the table stays valid and every other name keeps its slot |
| `SlotFacts.SlotCollisionAsWritten` | src/code_gen.py:55 | as written, redeclaring a name and then declaring a new one gives both the same slot |
| `SlotFacts.SlotCollisionExample` | src/code_gen.py:53-56 | `x` declared twice and then `y` leave both in slot 1 as written |
| `SlotFacts.SlotCollisionFixed` | src/code_gen.py:53-56 | with fresh slots, the `x`, `x`, `y` declarations that collide as written get slots 0, 1 and 2 |
| `SlotFacts.GenStmtSlots` | src/code_gen.py:53-164 | lowering a statement keeps every bound slot below the count handed out and no two names sharing one; every name keeps its slot or is rebound to one handed out during the statement |
| `SlotFacts.GenerateSlotsDistinct` | src/code_gen.py:26-56 | in a generated program's final table no two names share a memory slot, and every bound slot is below the count of slots handed out |
| `CodeGen.CodeGenerator.constructor` | src/code_gen.py:20-24 | empty instruction list, symbol table and loop-end stack; label counter and slot count 0 |
| `CodeGen.CodeGenerator.Emit` | src/code_gen.py:39-40 | appends one instruction and changes nothing else |
| `CodeGen.CodeGenerator.EmitLabel` | src/code_gen.py:42-43 | appends one marker and changes nothing else |
| `CodeGen.CodeGenerator.CreateLabel` | src/code_gen.py:45-47 | the counter goes up by one and the label is `L` followed by it |
| `CodeGen.CodeGenerator.JumpAndMark` | src/code_gen.py:73-74 | appends a jump to one label and the marker of another |
| `CodeGen.CodeGenerator.VisitExpr` | src/code_gen.py:111-155 | appends exactly ExprCode's instructions or fails with its error; the tables are unchanged |
| `CodeGen.CodeGenerator.VisitUnary` | src/code_gen.py:142-149 | the same for a unary expression: operand code, then the operator's |
| `CodeGen.CodeGenerator.VisitBinary` | src/code_gen.py:111-139 | the same for a binary expression: left, right, then the operator's code |
| `CodeGen.CodeGenerator.EmitOperator` | src/code_gen.py:114-139 | appends OperatorCode |
| `CodeGen.CodeGenerator.VisitStmt` | src/code_gen.py:53-164 | appends GenStmt's fragment and takes its new symbol table, slot count and label counter, or fails with its error; the loop-end stack is as before |
| `CodeGen.CodeGenerator.VisitWhile` | src/code_gen.py:58-76 | computes GenWhile; the pushed loop-end label is popped again |
| `CodeGen.CodeGenerator.VisitIf` | src/code_gen.py:78-105 | computes GenIf |
| `CodeGen.CodeGenerator.VisitClauses` | src/code_gen.py:90-103 | computes GenClauses |
| `CodeGen.CodeGenerator.VisitClause` | src/code_gen.py:91-103 | computes GenClause |
| `CodeGen.CodeGenerator.VisitElseIf` | src/code_gen.py:95-103 | computes GenElseIf |
| `CodeGen.CodeGenerator.VisitAll` | src/code_gen.py:49-51 | computes GenStmts |
| `CodeGen.CodeGenerator.Generate` | src/code_gen.py:26-29 | returns the instruction list: the statements' code followed by HALT |
| `CodeGen.Compile` | src/code_gen.py:19-29 | a fresh generator returns exactly Lowering.Generate |
| `Machine.Fresh` | src/sam_vm.py:36-40 | empty stack, 1024 cells all 0, counter 0, nothing printed |
| `Machine.FindFrom` | src/sam_vm.py:109-114 | the first marker `"L:"` of the label at or after the start, or LabelNotFound exactly when there is none |
| `Machine.FindLabelFirst` | src/sam_vm.py:109-114 | the label search from the start returns the first marker of the label, and fails exactly when the program has none |
| `Machine.MarkerText` | src/sam_vm.py:111-112 | an entry marks label `L` exactly when it is a marker whose text is `L` followed by a colon |
| `Machine.Cell` | src/sam_vm.py:100-103 | a slot addresses a cell iff it is in -1024..1023 (negative slots count from the end); otherwise MemoryOutOfRange |
| `Machine.Apply` | src/sam_vm.py:62-91 | a binary opcode fails iff it is DIV by 0, with DivisionByZero |
| `Machine.Execute` | src/sam_vm.py:50-107 | an entry's effect keeps the memory size, only appends to the output, and leaves the counter as is, at the end, or just before a marker |
| `Machine.Step` | src/sam_vm.py:46-48 | executing the current entry then advancing keeps the state valid |
| `Machine.Run` | src/sam_vm.py:42-48 | a finished run ends with the counter at or past the end |
| `MachineFacts.FloorDivIsFloor` | src/sam_vm.py:71-74 | `a // b` rounds towards negative infinity |
| `MachineFacts.BinaryEffect` | src/sam_vm.py:62-91 | ADD ... OR pop `b` then `a` and push `a op b`: one lower, nothing else changes; an underflow below two values; fails only for DIV by 0 |
| `MachineFacts.BooleanResults` | src/sam_vm.py:77-91 | LT, GT, EQ push 0 or 1; on 0/1 operands AND and OR are the logical connectives |
| `MachineFacts.NotEffect` | src/sam_vm.py:92-94 | NOT replaces the top with 1 if it was 0 and with 0 otherwise; an empty stack fails |
| `MachineFacts.StackEffects` | src/sam_vm.py:54-61 | PUSH raises the stack by one, POP lowers it by one, SWAP exchanges the top two; each fails exactly on too short a stack |
| `MachineFacts.MarkerStep` | src/sam_vm.py:50-52 | a marker (and DUP) changes nothing but the counter |
| `MachineFacts.JmpStep` | src/sam_vm.py:95-96 | after JMP the next entry is the label's first marker; an absent label fails |
| `MachineFacts.JzStep` | src/sam_vm.py:97-99 | JZ pops; it jumps to the label's marker iff the value is 0, else falls through |
| `MachineFacts.StoreLoadFrame` | src/sam_vm.py:100-103 | STORE pops into its cell and changes no other; LOAD pushes the cell and leaves memory alone |
| `MachineFacts.OutOfRangeSlot` | src/sam_vm.py:100-103 | a slot outside the memory fails with MemoryOutOfRange |
| `MachineFacts.HaltStops` | src/sam_vm.py:106-107 | HALT ends the run at once: nothing after it executes |
| `MachineFacts.RunMonotone` | src/sam_vm.py:42-48 | more steps do not change a run that finished |
| `MachineFacts.RunOutputGrows` | src/sam_vm.py:104-105 | a run only appends to the printed output |
| `Vm.SAMVirtualMachine.constructor` | src/sam_vm.py:36-40 | a fresh machine's state is Machine.Fresh |
| `Vm.SAMVirtualMachine.PopTop` | src/sam_vm.py:56-57 | removes and returns the top; an empty stack is StackUnderflow |
| `Vm.SAMVirtualMachine.FindLabel` | src/sam_vm.py:109-114 | its linear search computes Machine.FindLabel |
| `Vm.SAMVirtualMachine.ExecuteBinary` | src/sam_vm.py:62-91 | a binary opcode's effect on the object is Machine.Execute's |
| `Vm.SAMVirtualMachine.ExecuteStack` | src/sam_vm.py:54-61 | PUSH, POP, SWAP and NOT act as Machine.Execute says |
| `Vm.SAMVirtualMachine.ExecuteJump` | src/sam_vm.py:95-99 | JMP and JZ act as Machine.Execute says |
| `Vm.SAMVirtualMachine.ExecuteMemory` | src/sam_vm.py:100-103 | STORE writes the memory array in place and LOAD reads it, as Machine.Execute says |
| `Vm.SAMVirtualMachine.Execute` | src/sam_vm.py:50-107 | every entry acts on the object as Machine.Execute says, error included |
| `Vm.SAMVirtualMachine.Run` | src/sam_vm.py:42-48 | the fetch-execute loop computes Machine.Run |
| `ExprSemantics.LessEqualCorrect` | src/code_gen.py:132-135 | on integer operands, `PUSH 1, ADD, LT` on `a`, `b` pushes `a <= b` |
| `ExprSemantics.GreaterEqualCorrect` | src/code_gen.py:136-139 | on integer operands, `PUSH 1, SUB, GT` on `a`, `b` pushes `a >= b` |
| `ExprSemantics.NotEqualCorrect` | src/code_gen.py:111-139 | the corrected `!=` code pushes 1 iff the operands differ |
| `ExprSemantics.OperatorCorrect` | src/code_gen.py:111-139 | each operator's code pops its two operands and pushes the operator's value |
| `ExprSemantics.UnaryCorrect` | src/code_gen.py:142-149 | `PUSH 0, SWAP, SUB` pushes `-x`; NOT pushes the negation |
| `ExprSemantics.ExprCodeCorrect` | src/code_gen.py:111-155 | on integer operands (the only values the machine model holds), running an expression's code pushes its value, with variables read from their slots, and changes nothing else; a failing evaluation fails with the same error |
| `ExprSemantics.UnaryCodeCorrect` | src/code_gen.py:142-149 | the same for a unary expression |
| `ExprSemantics.BinaryCodeCorrect` | src/code_gen.py:111-139 | the same for a binary expression, left operand first |
| `ExprSemantics.NotEqualAsWritten` | src/code_gen.py:111-139 | as written, `!=` leaves both operands on the stack and does not push the operator's value |

## Left out

- Exception message texts, `__repr__` and `__str__`: each error is a kind with its line, column, token or name.
- Floating point at run time: a float literal pushes its text, which the machine refuses with FloatNotModelled, and float division is not modelled. `float` remains a static type.
- Console output: PRINT appends the popped value to an `output` sequence.
- Booleans are pushed as 1 and 0, so a printed boolean literal shows as 1 or 0 where the source prints `True` or `False`.
- Python's Unicode `isalpha`, `isdigit` and `isspace`: ASCII classes are used.
- Dispatch by method name through `getattr` and `generic_visit`: replaced by a `match` over the syntax tree. An else clause met as a statement is NoVisitMethod, and a clause that is neither `else if` nor `else` is MalformedClause.
- The state an object is left in after a failure: the caller abandons the stage, and only the error is specified.
- The generator's unused `current_end_label` field and the analyzer's unused `current_function` field.
- The offline LL(1) grammar-checking scripts under `grammar/`: they depend on modules that are not part of this model.
- Grammar.ParseProgram: the parser's precondition asks only that integer literals be digit strings, that type names be type names and that the list end with end-of-input. Grammar.LexedTokensValid proves that the lexer's output meets it.
- Machine.Run: the source's loop has no bound. The model runs at most `fuel` entries and reports FuelExhausted beyond that, so a program that never halts is not distinguished from a long one.
- Vm.SAMVirtualMachine.Run: the same fuel bound as Machine.Run.
- Machine.Execute: PUSH of an operand that is neither a number nor a float's text is BadOperand. The source would push it anyway; the generator never emits one.
- Machine.Cell: a slot index is an unbounded integer, as the generator's slots are counts of declarations. Python list indexing is followed, including negative indices.
- Lowering.GenStmt: the generator has no scopes, as in the source, so after an inner block a redeclared name keeps referring to the slot of its last declaration. The source rebinds a redeclared name to the table's size (src/code_gen.py:55), which is the collision in the second Findings row; the fresh slot the model gives it is the corrected rule, not the source's.
- ExprSemantics.LessEqualCorrect: proved for integer operands only. On floats, `a <= b` is lowered as `a < b + 1`, which is wrong: `1.5 <= 1.2` would push 1. `a >= b` is lowered as `a > b - 1`, which is wrong in the same way: `1.2 >= 1.5` would be computed as `1.2 > 0.5` and push 1. Run-time floats are not modelled.
- ExprSemantics.GreaterEqualCorrect: proved for integer operands only, for the same reason.
- Lowering.GenIf: statement-level execution is not proved. The model proves the shape of a lowered if statement and that its labels resolve (`LoweringFacts.GenIfParts`, `LoweringFacts.GenerateLabelsResolve`), but no lemma runs it on `Machine.Run` to show that exactly one branch body executes: the first whose condition is true, or the trailing else.
- Lowering.GenWhile: statement-level execution is not proved in the same way. The shape `JMP s; s:; cond; JZ e; body; JMP s; e:`, with the body lowered under `e` pushed last on the loop-end stack, is proved (`LoweringFacts.GenWhileParts`), and `break` lowers to a JMP to the last label on that stack; but no lemma runs a loop on `Machine.Run` to show that a `break` leaves only the innermost enclosing loop.

## Findings

| source | as written | input that shows it | evidently intended | confidence | as-written member | corrected member |
|---|---|---|---|---|---|---|
| src/code_gen.py:111-139 | `!=` matches no branch of the operator chain, so no instruction follows its operands' code | `print(1 != 2);` leaves 1 on the stack and prints 2 | EQ then NOT, pushing 1 exactly when the operands differ | not executed | `ExprSemantics.NotEqualAsWritten` | `ExprSemantics.NotEqualCorrect` |
| src/code_gen.py:55 | a declaration re-keys its name to the table's current size, so a redeclared name takes the slot the next new name will get | `let x: int = 1; if (true) { let x: int = 2; } let y: int = 3; print(x);` puts `x` and `y` both in slot 1 and prints 3 | every declaration gets a slot that no earlier declaration got, so no two names share one | not executed | `SlotFacts.SlotCollisionExample` | `SlotFacts.DeclareSlotFresh` |
| src/parser.py:72-79 | the program is whatever the top-level statement list parses, which stops silently at a `}` | `} print(1);` is accepted as the empty program | a stray `}` at top level is a parse error | not executed | `GrammarFacts.StrayBraceTruncates` | `Grammar.ParseProgram` |
