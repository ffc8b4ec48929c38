/**
  Properties of the grammar: operators bind by precedence and associate to
  the left, an if statement's clauses form an else-chain, and the corrected
  program rule rejects a stray closing brace that the original rule skips.
*/
module GrammarFacts {
  import opened Wrappers
  import opened Numerals
  import opened Lexer
  import opened Ast
  import opened Grammar

  /**
    `e` can stand without parentheses where an operand of binary level `level`
    is expected (level 6 is the operand of a unary operator): every binary
    node binds at least as tightly as its context, its left operand at its own
    level and its right operand one level tighter.
  */
  predicate Tight(e: Expr, level: nat) {
    match e
    case BinaryOp(left, op, right) =>
      level <= OpLevel(op) && Tight(left, OpLevel(op)) && Tight(right, OpLevel(op) + 1)
    case UnaryOp(_, operand) => Tight(operand, BinaryLevels)
    case _ => true
  }

  lemma TightWeaken(e: Expr, level: nat, looser: nat)
    requires Tight(e, level) && looser <= level
    ensures Tight(e, looser)
  {
  }

  /** No opening parenthesis among the tokens from `p` up to, not including, `q`. */
  predicate NoParens(ts: seq<Token>, p: nat, q: nat)
    requires q <= |ts|
  {
    forall i :: p <= i < q ==> ts[i].kind != LParen
  }

  /** An expression parsed without parentheses respects precedence and left associativity. */
  lemma {:induction false} ExprTight(ts: seq<Token>, pos: nat)
    requires ValidTokens(ts) && pos < |ts|
    requires ExprAt(ts, pos).Ok? && NoParens(ts, pos, ExprAt(ts, pos).value.1)
    ensures Tight(ExprAt(ts, pos).value.0, 0)
  {
    LevelTight(ts, pos, 0);
  }

  lemma {:induction false} LevelTight(ts: seq<Token>, pos: nat, level: nat)
    requires ValidTokens(ts) && pos < |ts| && level < BinaryLevels
    requires LevelAt(ts, pos, level).Ok? && NoParens(ts, pos, LevelAt(ts, pos, level).value.1)
    ensures Tight(LevelAt(ts, pos, level).value.0, level)
    decreases |ts| - pos, 3 * (BinaryLevels - level) + 1
  {
    var first := NextLevelAt(ts, pos, level).value;
    NextLevelTight(ts, pos, level);
    TightWeaken(first.0, level + 1, level);
    LevelRestTight(ts, first.1, level, first.0);
  }

  lemma {:induction false} NextLevelTight(ts: seq<Token>, pos: nat, level: nat)
    requires ValidTokens(ts) && pos < |ts| && level < BinaryLevels
    requires NextLevelAt(ts, pos, level).Ok? && NoParens(ts, pos, NextLevelAt(ts, pos, level).value.1)
    ensures Tight(NextLevelAt(ts, pos, level).value.0, level + 1)
    decreases |ts| - pos, 3 * (BinaryLevels - level)
  {
    if level == BinaryLevels - 1 {
      UnaryTight(ts, pos);
    } else {
      LevelTight(ts, pos, level + 1);
    }
  }

  lemma {:induction false} LevelRestTight(ts: seq<Token>, pos: nat, level: nat, left: Expr)
    requires ValidTokens(ts) && pos < |ts| && level < BinaryLevels && Tight(left, level)
    requires LevelRest(ts, pos, level, left).Ok? && NoParens(ts, pos, LevelRest(ts, pos, level, left).value.1)
    ensures Tight(LevelRest(ts, pos, level, left).value.0, level)
    decreases |ts| - pos, 0
  {
    if !AtEnd(ts, pos) && LevelOp(level, ts[pos].kind).Some? {
      var op := LevelOp(level, ts[pos].kind).value;
      var right := NextLevelAt(ts, pos + 1, level).value;
      NextLevelTight(ts, pos + 1, level);
      LevelOpHasLevel(level, ts[pos].kind);
      LevelRestTight(ts, right.1, level, BinaryOp(left, op, right.0));
    }
  }

  lemma {:induction false} UnaryTight(ts: seq<Token>, pos: nat)
    requires ValidTokens(ts) && pos < |ts|
    requires UnaryAt(ts, pos).Ok? && NoParens(ts, pos, UnaryAt(ts, pos).value.1)
    ensures Tight(UnaryAt(ts, pos).value.0, BinaryLevels)
    decreases |ts| - pos, 1
  {
    if CheckAt(ts, pos, Minus) || CheckAt(ts, pos, Not) {
      UnaryStep(ts, pos);
      UnaryTight(ts, pos + 1);
    } else {
      PrimaryStep(ts, pos);
    }
  }

  /** A prefix operator applies to the unary expression after it, which ends where the whole one ends. */
  lemma UnaryStep(ts: seq<Token>, pos: nat)
    requires ValidTokens(ts) && pos < |ts| && (CheckAt(ts, pos, Minus) || CheckAt(ts, pos, Not))
    requires UnaryAt(ts, pos).Ok? && NoParens(ts, pos, UnaryAt(ts, pos).value.1)
    ensures pos + 1 < |ts| && UnaryAt(ts, pos + 1).Ok?
    ensures UnaryAt(ts, pos).value.0.UnaryOp? && UnaryAt(ts, pos).value.0.operand == UnaryAt(ts, pos + 1).value.0
    ensures NoParens(ts, pos + 1, UnaryAt(ts, pos + 1).value.1)
  {
  }

  /** Without a parenthesis a primary is a literal or an identifier. */
  lemma PrimaryStep(ts: seq<Token>, pos: nat)
    requires ValidTokens(ts) && pos < |ts| && !CheckAt(ts, pos, Minus) && !CheckAt(ts, pos, Not)
    requires UnaryAt(ts, pos).Ok? && NoParens(ts, pos, UnaryAt(ts, pos).value.1)
    ensures UnaryAt(ts, pos).value.0.Literal? || UnaryAt(ts, pos).value.0.Identifier?
  {
    assert UnaryAt(ts, pos) == PrimaryAt(ts, pos);
    assert ts[pos].kind != LParen;
  }

  /** Clauses that are all `else if`s without clauses of their own. */
  predicate ElseIfClauses(clauses: seq<Stmt>) {
    forall i :: 0 <= i < |clauses| ==> clauses[i].IfStatement? && clauses[i].elseIfList == []
  }

  lemma ElseIfClausesAppend(acc: seq<Stmt>, clause: Stmt)
    requires ElseIfClauses(acc) && clause.IfStatement? && clause.elseIfList == []
    ensures ElseIfClauses(acc + [clause])
  {
    forall i | 0 <= i < |acc| + 1 ensures (acc + [clause])[i].IfStatement? && (acc + [clause])[i].elseIfList == [] {
      if i < |acc| {
        assert (acc + [clause])[i] == acc[i];
      }
    }
  }

  /** `else if`s alone form a chain, and so do they when one `else` is added at the end. */
  lemma ElseChainClosed(acc: seq<Stmt>, last: Stmt)
    requires ElseIfClauses(acc) && last.ElseStatement?
    ensures ElseChain(acc) && ElseChain(acc + [last])
  {
    forall i | 0 <= i < |acc| + 1
      ensures ((acc + [last])[i].IfStatement? && (acc + [last])[i].elseIfList == []) ||
              ((acc + [last])[i].ElseStatement? && i == |acc|)
    {
      if i < |acc| {
        assert (acc + [last])[i] == acc[i];
      }
    }
  }

  lemma {:induction false} ElseIfListChain(ts: seq<Token>, pos: nat, acc: seq<Stmt>)
    requires ValidTokens(ts) && pos < |ts| && ElseIfClauses(acc)
    requires ElseIfListAt(ts, pos, acc).Ok?
    ensures ElseChain(ElseIfListAt(ts, pos, acc).value.0)
    decreases |ts| - pos
  {
    if CheckAt(ts, pos, Else) && CheckAt(ts, pos + 1, If) {
      var c := ConditionBlockAt(ts, pos + 2).value;
      var acc' := acc + [IfStatement(c.0.0, c.0.1, [])];
      assert ElseIfListAt(ts, pos, acc) == ElseIfListAt(ts, c.1, acc');
      ElseIfClausesAppend(acc, IfStatement(c.0.0, c.0.1, []));
      ElseIfListChain(ts, c.1, acc');
    } else if CheckAt(ts, pos, Else) {
      var body := BlockAt(ts, pos + 1).value;
      assert ElseIfListAt(ts, pos, acc).value.0 == acc + [ElseStatement(body.0)];
      ElseChainClosed(acc, ElseStatement(body.0));
    } else {
      assert ElseIfListAt(ts, pos, acc).value.0 == acc;
      ElseChainClosed(acc, ElseStatement([]));
    }
  }

  /** An if statement's clauses: `else if`s, then at most one `else`, which comes last. */
  lemma IfStatementChain(ts: seq<Token>, pos: nat)
    requires ValidTokens(ts) && pos < |ts| && IfStatementAt(ts, pos).Ok?
    ensures IfStatementAt(ts, pos).value.0.IfStatement?
    ensures ElseChain(IfStatementAt(ts, pos).value.0.elseIfList)
  {
    ElseIfListChain(ts, ConditionBlockAt(ts, pos).value.1, []);
  }

  // ---------------------------------------------------------------- examples

  /** An operand already parsed at a tighter level stays as it is at looser levels whose operators do not follow it. */
  lemma {:induction false} LooserLevels(ts: seq<Token>, pos: nat, level: nat, from: nat, e: Expr, q: nat)
    requires ValidTokens(ts) && pos < |ts| && level <= from < BinaryLevels && q < |ts|
    requires LevelAt(ts, pos, from) == Ok((e, q))
    requires AtEnd(ts, q) || !IsBinaryOperator(ts[q].kind)
    ensures LevelAt(ts, pos, level) == Ok((e, q))
    decreases from - level
  {
    if level < from {
      if !AtEnd(ts, q) {
        NoLevelOperator(from - 1, ts[q].kind);
      }
      LooserStep(ts, pos, from - 1, e, q);
      LooserLevels(ts, pos, level, from - 1, e, q);
    }
  }

  /** A token that is not a binary operator is the operator of no level. */
  lemma NoLevelOperator(level: nat, k: TokenKind)
    requires level < BinaryLevels && !IsBinaryOperator(k)
    ensures LevelOp(level, k) == None
  {
  }

  /** An operand of the next level not followed by an operator of this level is all this level parses. */
  lemma LooserStep(ts: seq<Token>, pos: nat, level: nat, e: Expr, q: nat)
    requires ValidTokens(ts) && pos < |ts| && level + 1 < BinaryLevels && q < |ts|
    requires LevelAt(ts, pos, level + 1) == Ok((e, q))
    requires AtEnd(ts, q) || LevelOp(level, ts[q].kind) == None
    ensures LevelAt(ts, pos, level) == Ok((e, q))
  {
    assert NextLevelAt(ts, pos, level) == Ok((e, q));
  }

  function Tok(k: TokenKind, lexeme: string, column: int): Token {
    Token(k, lexeme, 1, column)
  }

  /** An integer literal followed by no binary operator is a whole expression. */
  lemma IntExpression(ts: seq<Token>, pos: nat)
    requires ValidTokens(ts) && pos + 1 < |ts| && ts[pos].kind == IntLiteral
    requires !IsBinaryOperator(ts[pos + 1].kind)
    ensures ExprAt(ts, pos) == Ok((Literal(IntLit(DecimalValue(ts[pos].lexeme))), pos + 1))
  {
    var e := Literal(IntLit(DecimalValue(ts[pos].lexeme)));
    IntOperand(ts, pos);
    LooserLevels(ts, pos, 0, BinaryLevels - 1, e, pos + 1);
  }


  /** An integer literal not followed by `*` or `/` is a whole operand of the multiplicative level. */
  lemma IntOperand(ts: seq<Token>, pos: nat)
    requires ValidTokens(ts) && pos + 1 < |ts| && ts[pos].kind == IntLiteral
    requires ts[pos + 1].kind != Multiply && ts[pos + 1].kind != Divide
    ensures LevelAt(ts, pos, BinaryLevels - 1) == Ok((Literal(IntLit(DecimalValue(ts[pos].lexeme))), pos + 1))
  {
    var e := Literal(IntLit(DecimalValue(ts[pos].lexeme)));
    assert PrimaryAt(ts, pos) == Ok((e, pos + 1));
    assert UnaryAt(ts, pos) == Ok((e, pos + 1));
    assert NextLevelAt(ts, pos, BinaryLevels - 1) == Ok((e, pos + 1));
    MultiplicativeOnly(ts[pos + 1].kind);
    assert LevelRest(ts, pos + 1, BinaryLevels - 1, e) == Ok((e, pos + 1));
  }

  /** Only `*` and `/` are operators of the multiplicative level. */
  lemma MultiplicativeOnly(k: TokenKind)
    requires k != Multiply && k != Divide
    ensures LevelOp(BinaryLevels - 1, k) == None
  {
  }

  /** One turn of a binary level's loop: the operator and the next operand are folded into the left operand. */
  lemma LevelRestStep(ts: seq<Token>, pos: nat, level: nat, left: Expr, right: Expr, q: nat)
    requires ValidTokens(ts) && pos + 1 < |ts| && level < BinaryLevels && q < |ts|
    requires !AtEnd(ts, pos) && LevelOp(level, ts[pos].kind).Some?
    requires NextLevelAt(ts, pos + 1, level) == Ok((right, q))
    ensures LevelRest(ts, pos, level, left) == LevelRest(ts, q, level, BinaryOp(left, LevelOp(level, ts[pos].kind).value, right))
  {
  }

  lemma SmallNumerals()
    ensures DecimalValue("1") == 1 && DecimalValue("2") == 2 && DecimalValue("3") == 3
  {
    assert "1"[..0] == [] && "2"[..0] == [] && "3"[..0] == [];
  }

  /** The tokens of `1 - 2 - 3`. */
  function SubtractionTokens(): seq<Token> {
    [Tok(IntLiteral, "1", 1), Tok(Minus, "-", 3), Tok(IntLiteral, "2", 5), Tok(Minus, "-", 7),
     Tok(IntLiteral, "3", 9), Tok(Eof, "", 10)]
  }

  lemma SubtractionTokensValid()
    ensures ValidTokens(SubtractionTokens())
  {
    assert AllDigits("1") && AllDigits("2") && AllDigits("3");
  }

  /** `a o1 b o2 c` with two operators of the same level groups as `(a o1 b) o2 c`. */
  lemma {:induction false} LevelGroupsLeft(ts: seq<Token>, pos: nat, level: nat, a: Expr, b: Expr, c: Expr, p1: nat, p2: nat, p3: nat)
    requires ValidTokens(ts) && pos < |ts| && level < BinaryLevels && p1 + 1 < |ts| && p2 + 1 < |ts| && p3 < |ts|
    requires NextLevelAt(ts, pos, level) == Ok((a, p1)) && !AtEnd(ts, p1) && LevelOp(level, ts[p1].kind).Some?
    requires NextLevelAt(ts, p1 + 1, level) == Ok((b, p2)) && !AtEnd(ts, p2) && LevelOp(level, ts[p2].kind).Some?
    requires NextLevelAt(ts, p2 + 1, level) == Ok((c, p3)) && (AtEnd(ts, p3) || LevelOp(level, ts[p3].kind).None?)
    ensures LevelAt(ts, pos, level) ==
      Ok((BinaryOp(BinaryOp(a, LevelOp(level, ts[p1].kind).value, b), LevelOp(level, ts[p2].kind).value, c), p3))
  {
    var ab := BinaryOp(a, LevelOp(level, ts[p1].kind).value, b);
    LevelRestStep(ts, p1, level, a, b, p2);
    LevelRestStep(ts, p2, level, ab, c, p3);
  }

  /** What the example needs to know of the tokens of `1 - 2 - 3`. */
  lemma SubtractionTokensShape(ts: seq<Token>)
    requires ts == SubtractionTokens()
    ensures |ts| == 6 && ValidTokens(ts)
    ensures ts[0].kind == IntLiteral && ts[2].kind == IntLiteral && ts[4].kind == IntLiteral
    ensures ts[0].lexeme == "1" && ts[2].lexeme == "2" && ts[4].lexeme == "3"
    ensures ts[1].kind == Minus && ts[3].kind == Minus && ts[5].kind == Eof
  {
    SubtractionTokensValid();
  }

  /** `1 - 2 - 3` groups as `(1 - 2) - 3`. */
  lemma SubtractionAssociatesLeft(ts: seq<Token>)
    requires ts == SubtractionTokens()
    ensures ValidTokens(ts)
    ensures ExprAt(ts, 0) ==
      Ok((BinaryOp(BinaryOp(Literal(IntLit(1)), SubOp, Literal(IntLit(2))), SubOp, Literal(IntLit(3))), 5))
  {
    SubtractionTokensShape(ts);
    SubtractionGroups(ts);
  }

  lemma SubtractionGroups(ts: seq<Token>)
    requires |ts| == 6 && ValidTokens(ts)
    requires ts[0].kind == IntLiteral && ts[2].kind == IntLiteral && ts[4].kind == IntLiteral
    requires ts[0].lexeme == "1" && ts[2].lexeme == "2" && ts[4].lexeme == "3"
    requires ts[1].kind == Minus && ts[3].kind == Minus && ts[5].kind == Eof
    ensures ExprAt(ts, 0) ==
      Ok((BinaryOp(BinaryOp(Literal(IntLit(1)), SubOp, Literal(IntLit(2))), SubOp, Literal(IntLit(3))), 5))
  {
    SmallNumerals();
    IntOperand(ts, 0);
    IntOperand(ts, 2);
    IntOperand(ts, 4);
    var one, two, three := Literal(IntLit(1)), Literal(IntLit(2)), Literal(IntLit(3));
    LevelGroupsLeft(ts, 0, 4, one, two, three, 1, 3, 5);
    LooserLevels(ts, 0, 0, 4, BinaryOp(BinaryOp(one, SubOp, two), SubOp, three), 5);
  }

  /** The tokens of `} print(1);`. */
  function StrayBraceTokens(): seq<Token> {
    [Tok(RBrace, "}", 1), Tok(Print, "print", 3), Tok(LParen, "(", 8), Tok(IntLiteral, "1", 9),
     Tok(RParen, ")", 10), Tok(Semicolon, ";", 11), Tok(Eof, "", 12)]
  }

  /** A program whose first token is a closing brace: the original rule accepts it as empty, the corrected one rejects the brace. */
  lemma LeadingBrace(ts: seq<Token>)
    requires ValidTokens(ts) && |ts| > 1 && ts[0].kind == RBrace
    ensures ParseProgramAsWritten(ts) == Ok(Program([]))
    ensures ParseProgram(ts) == Err(Unexpected(ts[0]))
  {
    assert !AtEnd(ts, 0);
    assert StatementsAt(ts, 0, []) == Ok(([], 0));
  }

  /** `} print(1);`: the original rule accepts it as the empty program, the corrected rule stops at the brace. */
  lemma StrayBraceTruncates(ts: seq<Token>)
    requires ts == StrayBraceTokens()
    ensures ValidTokens(ts)
    ensures ParseProgramAsWritten(ts) == Ok(Program([]))
    ensures ParseProgram(ts) == Err(Unexpected(Tok(RBrace, "}", 1)))
  {
    assert AllDigits("1");
    assert ValidTokens(ts);
    LeadingBrace(ts);
  }
}
