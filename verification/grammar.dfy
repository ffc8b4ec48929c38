/**
  The grammar the recursive-descent parser accepts, written as functions from
  a token sequence and a cursor position to the parsed node and the position
  after it. The imperative `Parser` class is proved to compute exactly these
  functions; the properties of the grammar (progress, precedence and
  associativity, the shape of an else-chain) are proved here.
*/
module Grammar {
  import opened Wrappers
  import opened Numerals
  import opened Lexer
  import opened Ast

  /** The parser stops at the first token it cannot use. */
  datatype ParseError = Unexpected(found: Token)

  /** A node and the position of the first token after it. */
  type Parsed<T> = Result<(T, nat), ParseError>

  /** What the parser needs of a token: an integer literal's lexeme is a string of digits, a type's one of the type names. */
  predicate Parsable(t: Token) {
    && (t.kind == IntLiteral ==> AllDigits(t.lexeme))
    && (t.kind == Type ==> t.lexeme in TypeNames)
  }

  /** What the parser needs of its input: parsable tokens, ending with end-of-input. */
  predicate ValidTokens(ts: seq<Token>) {
    |ts| > 0 && ts[|ts| - 1].kind == Eof && forall i :: 0 <= i < |ts| ==> Parsable(ts[i])
  }

  /** The lexer's output is valid input for the parser. */
  lemma LexedTokensValid(ts: seq<Token>)
    requires |ts| > 0 && ts[|ts| - 1].kind == Eof && forall i :: 0 <= i < |ts| ==> WellFormed(ts[i])
    ensures ValidTokens(ts)
  {
    forall i | 0 <= i < |ts| ensures Parsable(ts[i]) {
      assert WellFormed(ts[i]);
    }
  }

  predicate AtEnd(ts: seq<Token>, pos: nat)
    requires pos < |ts|
  {
    ts[pos].kind == Eof
  }

  /** The current token has kind `k`; never true at end of input. */
  predicate CheckAt(ts: seq<Token>, pos: nat, k: TokenKind)
    requires pos < |ts|
  {
    !AtEnd(ts, pos) && ts[pos].kind == k
  }

  /** The cursor moves forward by one token, except at end of input. */
  function AdvanceAt(ts: seq<Token>, pos: nat): (p: nat)
    requires ValidTokens(ts) && pos < |ts|
    ensures p < |ts|
    ensures AtEnd(ts, pos) ==> p == pos
    ensures !AtEnd(ts, pos) ==> p == pos + 1
  {
    if AtEnd(ts, pos) then pos else pos + 1
  }

  /** Takes a token of kind `k`, or fails at the current token. */
  function ConsumeAt(ts: seq<Token>, pos: nat, k: TokenKind): (r: Parsed<Token>)
    requires ValidTokens(ts) && pos < |ts|
    ensures r.Ok? <==> CheckAt(ts, pos, k)
    ensures r.Ok? ==> r.value == (ts[pos], pos + 1) && r.value.0.kind == k && pos + 1 < |ts|
    ensures r.Err? ==> r.error == Unexpected(ts[pos])
  {
    if CheckAt(ts, pos, k) then Ok((ts[pos], AdvanceAt(ts, pos))) else Err(Unexpected(ts[pos]))
  }

  function TypeNamed(name: string): Type
    requires name in TypeNames
  {
    if name == "int" then IntType else if name == "float" then FloatType else BoolType
  }

  // ---------------------------------------------------------------- expressions

  /** Number of binary precedence levels: 0 is `||`, 1 `&&`, 2 equality, 3 relational, 4 additive, 5 multiplicative. */
  const BinaryLevels: nat := 6

  /** The tokens that denote a binary operator at some level. */
  predicate IsBinaryOperator(k: TokenKind) {
    || k == Or || k == And || k == EqualEqual || k == NotEqual
    || k == LessThan || k == GreaterThan || k == LessEqual || k == GreaterEqual
    || k == Plus || k == Minus || k == Multiply || k == Divide
  }

  /** The operator a token denotes at binary level `level`, if any. */
  function LevelOp(level: nat, k: TokenKind): (r: Option<BinOp>)
    requires level < BinaryLevels
    ensures r.Some? ==> IsBinaryOperator(k)
  {
    match level
    case 0 => if k == Or then Some(OrOp) else None
    case 1 => if k == And then Some(AndOp) else None
    case 2 =>
      if k == EqualEqual then Some(EqualOp)
      else if k == NotEqual then Some(NotEqualOp)
      else None
    case 3 =>
      if k == LessThan then Some(LessOp)
      else if k == GreaterThan then Some(GreaterOp)
      else if k == LessEqual then Some(LessEqualOp)
      else if k == GreaterEqual then Some(GreaterEqualOp)
      else None
    case 4 =>
      if k == Plus then Some(AddOp)
      else if k == Minus then Some(SubOp)
      else None
    case _ =>
      if k == Multiply then Some(MulOp)
      else if k == Divide then Some(DivOp)
      else None
  }

  /** The token kinds a binary level tries, in the order the parser tries them. */
  function LevelKinds(level: nat): (kinds: seq<TokenKind>)
    requires level < BinaryLevels
    ensures forall k :: k in kinds <==> LevelOp(level, k).Some?
  {
    match level
    case 0 => [Or]
    case 1 => [And]
    case 2 => [EqualEqual, NotEqual]
    case 3 => [LessThan, GreaterThan, LessEqual, GreaterEqual]
    case 4 => [Plus, Minus]
    case _ => [Multiply, Divide]
  }

  /** The binary level an operator belongs to. */
  function OpLevel(op: BinOp): (level: nat)
    ensures level < BinaryLevels
  {
    match op
    case OrOp => 0
    case AndOp => 1
    case EqualOp | NotEqualOp => 2
    case LessOp | GreaterOp | LessEqualOp | GreaterEqualOp => 3
    case AddOp | SubOp => 4
    case MulOp | DivOp => 5
  }

  lemma LevelOpHasLevel(level: nat, k: TokenKind)
    requires level < BinaryLevels && LevelOp(level, k).Some?
    ensures OpLevel(LevelOp(level, k).value) == level
  {
  }

  /** expression: the loosest binary level. */
  function ExprAt(ts: seq<Token>, pos: nat): (r: Parsed<Expr>)
    requires ValidTokens(ts) && pos < |ts|
    ensures r.Ok? ==> pos < r.value.1 < |ts|
    decreases |ts| - pos, 3 * BinaryLevels + 2
  {
    LevelAt(ts, pos, 0)
  }

  /** One binary level: an operand of the next level, then any operators of this level folded to the left. */
  function LevelAt(ts: seq<Token>, pos: nat, level: nat): (r: Parsed<Expr>)
    requires ValidTokens(ts) && pos < |ts| && level < BinaryLevels
    ensures r.Ok? ==> pos < r.value.1 < |ts|
    decreases |ts| - pos, 3 * (BinaryLevels - level) + 1
  {
    var first :- NextLevelAt(ts, pos, level);
    LevelRest(ts, first.1, level, first.0)
  }

  /** The operand of binary level `level`: the next binary level, or a unary expression after the last one. */
  function NextLevelAt(ts: seq<Token>, pos: nat, level: nat): (r: Parsed<Expr>)
    requires ValidTokens(ts) && pos < |ts| && level < BinaryLevels
    ensures r.Ok? ==> pos < r.value.1 < |ts|
    decreases |ts| - pos, 3 * (BinaryLevels - level)
  {
    if level == BinaryLevels - 1 then UnaryAt(ts, pos) else LevelAt(ts, pos, level + 1)
  }

  /** The loop of a binary level: while the current token is one of its operators, fold another operand in. */
  function LevelRest(ts: seq<Token>, pos: nat, level: nat, left: Expr): (r: Parsed<Expr>)
    requires ValidTokens(ts) && pos < |ts| && level < BinaryLevels
    ensures r.Ok? ==> pos <= r.value.1 < |ts|
    decreases |ts| - pos, 0
  {
    if !AtEnd(ts, pos) && LevelOp(level, ts[pos].kind).Some? then
      var right :- NextLevelAt(ts, pos + 1, level);
      LevelRest(ts, right.1, level, BinaryOp(left, LevelOp(level, ts[pos].kind).value, right.0))
    else
      Ok((left, pos))
  }

  /** unary: prefix `-` and `!` nest to the right; otherwise a primary. */
  function UnaryAt(ts: seq<Token>, pos: nat): (r: Parsed<Expr>)
    requires ValidTokens(ts) && pos < |ts|
    ensures r.Ok? ==> pos < r.value.1 < |ts|
    decreases |ts| - pos, 1
  {
    if CheckAt(ts, pos, Minus) || CheckAt(ts, pos, Not) then
      var operand :- UnaryAt(ts, pos + 1);
      Ok((UnaryOp(if ts[pos].kind == Minus then NegOp else NotOp, operand.0), operand.1))
    else
      PrimaryAt(ts, pos)
  }

  predicate StartsPrimary(k: TokenKind) {
    k == IntLiteral || k == FloatLiteral || k == BoolLiteral || k == TokenKind.Identifier || k == LParen
  }

  /** primary: a literal, an identifier or a parenthesised expression; anything else is an error. */
  function PrimaryAt(ts: seq<Token>, pos: nat): (r: Parsed<Expr>)
    requires ValidTokens(ts) && pos < |ts|
    ensures r.Ok? ==> pos < r.value.1 < |ts| && StartsPrimary(ts[pos].kind)
    ensures !StartsPrimary(ts[pos].kind) ==> r == Err(Unexpected(ts[pos]))
    ensures ts[pos].kind == BoolLiteral ==> r == Ok((Literal(BoolLit(ts[pos].lexeme == "true")), pos + 1))
    ensures r.Ok? && ts[pos].kind != LParen ==> r.value.1 == pos + 1 && (r.value.0.Literal? || r.value.0.Identifier?)
    decreases |ts| - pos, 0
  {
    var t := ts[pos];
    if CheckAt(ts, pos, IntLiteral) then Ok((Literal(IntLit(DecimalValue(t.lexeme))), pos + 1))
    else if CheckAt(ts, pos, FloatLiteral) then Ok((Literal(FloatLit(t.lexeme)), pos + 1))
    else if CheckAt(ts, pos, BoolLiteral) then Ok((Literal(BoolLit(t.lexeme == "true")), pos + 1))
    else if CheckAt(ts, pos, TokenKind.Identifier) then Ok((Expr.Identifier(t.lexeme), pos + 1))
    else if CheckAt(ts, pos, LParen) then
      var inner :- ExprAt(ts, pos + 1);
      var close :- ConsumeAt(ts, inner.1, RParen);
      Ok((inner.0, close.1))
    else
      Err(Unexpected(t))
  }

  // ---------------------------------------------------------------- statements

  /** statement_list: statements up to, not including, end of input or a closing brace. */
  function StatementsAt(ts: seq<Token>, pos: nat, acc: seq<Stmt>): (r: Parsed<seq<Stmt>>)
    requires ValidTokens(ts) && pos < |ts|
    ensures r.Ok? ==> pos <= r.value.1 < |ts|
    ensures r.Ok? ==> AtEnd(ts, r.value.1) || ts[r.value.1].kind == RBrace
    decreases |ts| - pos, 2
  {
    if AtEnd(ts, pos) || CheckAt(ts, pos, RBrace) then
      Ok((acc, pos))
    else
      var s :- StatementAt(ts, pos);
      StatementsAt(ts, s.1, acc + [s.0])
  }

  /** The tokens a statement can start with. */
  predicate StartsStatement(k: TokenKind) {
    k == Let || k == While || k == If || k == Break || k == Print || k == TokenKind.Identifier
  }

  /** statement: chosen by its first token; any other first token is an error. */
  function StatementAt(ts: seq<Token>, pos: nat): (r: Parsed<Stmt>)
    requires ValidTokens(ts) && pos < |ts|
    ensures r.Ok? ==> pos < r.value.1 < |ts| && StartsStatement(ts[pos].kind)
    ensures !StartsStatement(ts[pos].kind) ==> r == Err(Unexpected(ts[pos]))
    decreases |ts| - pos, 1
  {
    if CheckAt(ts, pos, Let) then VariableDeclAt(ts, pos + 1)
    else if CheckAt(ts, pos, While) then WhileLoopAt(ts, pos + 1)
    else if CheckAt(ts, pos, If) then IfStatementAt(ts, pos + 1)
    else if CheckAt(ts, pos, Break) then
      var semi :- ConsumeAt(ts, pos + 1, Semicolon);
      Ok((BreakStatement, semi.1))
    else if CheckAt(ts, pos, Print) then PrintStatementAt(ts, pos + 1)
    else if CheckAt(ts, pos, TokenKind.Identifier) then AssignmentAt(ts, pos)
    else Err(Unexpected(ts[pos]))
  }

  /** `let name : type = expression ;`, from the token after `let`. */
  function VariableDeclAt(ts: seq<Token>, pos: nat): (r: Parsed<Stmt>)
    requires ValidTokens(ts) && pos < |ts|
    ensures r.Ok? ==> pos < r.value.1 < |ts| && r.value.0.VariableDecl?
  {
    var name :- ConsumeAt(ts, pos, TokenKind.Identifier);
    var colon :- ConsumeAt(ts, name.1, Colon);
    var ty :- ConsumeAt(ts, colon.1, Type);
    var eq :- ConsumeAt(ts, ty.1, Equals);
    var value :- ExprAt(ts, eq.1);
    var semi :- ConsumeAt(ts, value.1, Semicolon);
    Ok((VariableDecl(name.0.lexeme, TypeNamed(ty.0.lexeme), value.0), semi.1))
  }

  /** `( expression ) block`: the condition and body shared by `while`, `if` and `else if`. */
  function ConditionBlockAt(ts: seq<Token>, pos: nat): (r: Parsed<(Expr, seq<Stmt>)>)
    requires ValidTokens(ts) && pos < |ts|
    ensures r.Ok? ==> pos < r.value.1 < |ts|
    decreases |ts| - pos, 0
  {
    var open :- ConsumeAt(ts, pos, LParen);
    var cond :- ExprAt(ts, open.1);
    var close :- ConsumeAt(ts, cond.1, RParen);
    var body :- BlockAt(ts, close.1);
    Ok(((cond.0, body.0), body.1))
  }

  /** `( expression ) block`, from the token after `while`. */
  function WhileLoopAt(ts: seq<Token>, pos: nat): (r: Parsed<Stmt>)
    requires ValidTokens(ts) && pos < |ts|
    ensures r.Ok? ==> pos < r.value.1 < |ts| && r.value.0.WhileLoop?
    decreases |ts| - pos, 1
  {
    var c :- ConditionBlockAt(ts, pos);
    Ok((WhileLoop(c.0.0, c.0.1), c.1))
  }

  /** `( expression ) block else_if_list`, from the token after `if`. */
  function IfStatementAt(ts: seq<Token>, pos: nat): (r: Parsed<Stmt>)
    requires ValidTokens(ts) && pos < |ts|
    ensures r.Ok? ==> pos < r.value.1 < |ts| && r.value.0.IfStatement?
    decreases |ts| - pos, 1
  {
    var c :- ConditionBlockAt(ts, pos);
    var elses :- ElseIfListAt(ts, c.1, []);
    Ok((IfStatement(c.0.0, c.0.1, elses.0), elses.1))
  }

  /** Every clause is an `else if` with no clauses of its own, except that the last may be an `else`. */
  predicate ElseChain(clauses: seq<Stmt>) {
    forall i :: 0 <= i < |clauses| ==>
      (clauses[i].IfStatement? && clauses[i].elseIfList == []) || (clauses[i].ElseStatement? && i == |clauses| - 1)
  }

  /** else_if_list: any number of `else if` clauses, ended by a bare `else` or by a token other than `else`. */
  function ElseIfListAt(ts: seq<Token>, pos: nat, acc: seq<Stmt>): (r: Parsed<seq<Stmt>>)
    requires ValidTokens(ts) && pos < |ts|
    ensures r.Ok? ==> pos <= r.value.1 < |ts|
    decreases |ts| - pos, 0
  {
    if CheckAt(ts, pos, Else) then
      if CheckAt(ts, pos + 1, If) then
        var c :- ConditionBlockAt(ts, pos + 2);
        ElseIfListAt(ts, c.1, acc + [IfStatement(c.0.0, c.0.1, [])])
      else
        var body :- BlockAt(ts, pos + 1);
        Ok((acc + [ElseStatement(body.0)], body.1))
    else
      Ok((acc, pos))
  }

  /** `( expression ) ;`, from the token after `print`. */
  function PrintStatementAt(ts: seq<Token>, pos: nat): (r: Parsed<Stmt>)
    requires ValidTokens(ts) && pos < |ts|
    ensures r.Ok? ==> pos < r.value.1 < |ts| && r.value.0.PrintStatement?
  {
    var open :- ConsumeAt(ts, pos, LParen);
    var e :- ExprAt(ts, open.1);
    var close :- ConsumeAt(ts, e.1, RParen);
    var semi :- ConsumeAt(ts, close.1, Semicolon);
    Ok((PrintStatement(e.0), semi.1))
  }

  /** `name = expression ;`. */
  function AssignmentAt(ts: seq<Token>, pos: nat): (r: Parsed<Stmt>)
    requires ValidTokens(ts) && pos < |ts|
    ensures r.Ok? ==> pos < r.value.1 < |ts| && r.value.0.AssignmentStmt? && r.value.0.name == ts[pos].lexeme
  {
    var name :- ConsumeAt(ts, pos, TokenKind.Identifier);
    var eq :- ConsumeAt(ts, name.1, Equals);
    var value :- ExprAt(ts, eq.1);
    var semi :- ConsumeAt(ts, value.1, Semicolon);
    Ok((AssignmentStmt(name.0.lexeme, value.0), semi.1))
  }

  /** block: `{`, a statement list, `}`. */
  function BlockAt(ts: seq<Token>, pos: nat): (r: Parsed<seq<Stmt>>)
    requires ValidTokens(ts) && pos < |ts|
    ensures r.Ok? ==> pos < r.value.1 < |ts|
    ensures r.Ok? ==> ts[pos].kind == LBrace && ts[r.value.1 - 1].kind == RBrace
    ensures ts[pos].kind != LBrace ==> r == Err(Unexpected(ts[pos]))
    decreases |ts| - pos, 3
  {
    var open := ConsumeAt(ts, pos, LBrace);
    if open.Err? then Err(open.error)
    else
      var stmts := StatementsAt(ts, pos + 1, []);
      if stmts.Err? then Err(stmts.error)
      else
        var close := ConsumeAt(ts, stmts.value.1, RBrace);
        if close.Err? then Err(close.error) else Ok((stmts.value.0, stmts.value.1 + 1))
  }

  /**
    program, as written: a statement list from the first token. The list also
    stops at a closing brace, and nothing checks that end of input follows, so
    a stray `}` at the top level silently drops the rest of the program.
  */
  function ParseProgramAsWritten(ts: seq<Token>): (r: Result<Program, ParseError>)
    requires ValidTokens(ts)
    ensures r.Ok? <==> StatementsAt(ts, 0, []).Ok?
  {
    var stmts :- StatementsAt(ts, 0, []);
    Ok(Program(stmts.0))
  }

  /**
    program, corrected: a statement list that must reach end of input; a
    closing brace where a statement should start is reported like any other
    unexpected token.
  */
  function ParseProgram(ts: seq<Token>): (r: Result<Program, ParseError>)
    requires ValidTokens(ts)
    ensures r.Ok? <==> StatementsAt(ts, 0, []).Ok? && AtEnd(ts, StatementsAt(ts, 0, []).value.1)
    ensures r.Ok? ==> r == ParseProgramAsWritten(ts)
    ensures StatementsAt(ts, 0, []).Ok? && !AtEnd(ts, StatementsAt(ts, 0, []).value.1) ==>
      r == Err(Unexpected(ts[StatementsAt(ts, 0, []).value.1])) && ts[StatementsAt(ts, 0, []).value.1].kind == RBrace
  {
    var stmts :- StatementsAt(ts, 0, []);
    if AtEnd(ts, stmts.1) then Ok(Program(stmts.0)) else Err(Unexpected(ts[stmts.1]))
  }
}
