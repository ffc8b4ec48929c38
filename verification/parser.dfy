/**
  The recursive-descent parser as the source writes it: an object holding the
  token list and a cursor, with one method per grammar rule. Every rule method
  is proved to compute the corresponding function of `Grammar`: the same node
  and the same cursor position on success, the same offending token on failure.
*/
module Parser {
  import opened Wrappers
  import opened Numerals
  import opened Lexer
  import opened Ast
  import opened Grammar

  /** The method's result and cursor are those the grammar function gives. */
  ghost predicate Agrees<T>(r: Result<T, ParseError>, spec: Parsed<T>, current: nat) {
    && (r.Ok? <==> spec.Ok?)
    && (r.Ok? ==> spec.value == (r.value, current))
    && (r.Err? ==> r.error == spec.error)
  }

  /** After `else if`, the clause list fails with the condition-and-block's error or goes on after it. */
  lemma ElseIfClauseStep(ts: seq<Token>, at: nat, clauses: seq<Stmt>, c: Result<(Expr, seq<Stmt>), ParseError>, after: nat)
    requires ValidTokens(ts) && at + 1 < |ts| && CheckAt(ts, at, Else) && CheckAt(ts, at + 1, If)
    requires Agrees(c, ConditionBlockAt(ts, at + 2), after)
    ensures c.Err? ==> ElseIfListAt(ts, at, clauses) == Err(c.error)
    ensures c.Ok? ==> ElseIfListAt(ts, at, clauses) == ElseIfListAt(ts, after, clauses + [IfStatement(c.value.0, c.value.1, [])])
  {
  }

  /** After a bare `else`, the clause list fails with the block's error or ends with the `else` clause. */
  lemma ElseClauseStep(ts: seq<Token>, at: nat, clauses: seq<Stmt>, body: Result<seq<Stmt>, ParseError>, after: nat)
    requires ValidTokens(ts) && at + 1 < |ts| && CheckAt(ts, at, Else) && !CheckAt(ts, at + 1, If)
    requires Agrees(body, BlockAt(ts, at + 1), after)
    ensures body.Err? ==> ElseIfListAt(ts, at, clauses) == Err(body.error)
    ensures body.Ok? ==> ElseIfListAt(ts, at, clauses) == Ok((clauses + [ElseStatement(body.value)], after))
  {
  }

  class Parser {
    const tokens: seq<Token>
    var current: nat

    ghost predicate Valid()
      reads this
    {
      ValidTokens(tokens) && current < |tokens|
    }

    constructor(tokens: seq<Token>)
      requires ValidTokens(tokens)
      ensures Valid() && this.tokens == tokens && current == 0
    {
      this.tokens := tokens;
      current := 0;
    }

    // ------------------------------------------------------------ cursor primitives

    method IsAtEnd() returns (b: bool)
      requires Valid()
      ensures b == AtEnd(tokens, current)
    {
      var t := Peek();
      b := t.kind == Eof;
    }

    method Peek() returns (t: Token)
      requires Valid()
      ensures t == tokens[current]
    {
      t := tokens[current];
    }

    /** The token before the cursor; at the first token this is the last one, as a negative index is in the source. */
    method Previous() returns (t: Token)
      requires Valid()
      ensures t == if current == 0 then tokens[|tokens| - 1] else tokens[current - 1]
    {
      if current == 0 {
        t := tokens[|tokens| - 1];
      } else {
        t := tokens[current - 1];
      }
    }

    method Check(k: TokenKind) returns (b: bool)
      requires Valid()
      ensures b == CheckAt(tokens, current, k)
    {
      var atEnd := IsAtEnd();
      if atEnd {
        return false;
      }
      var t := Peek();
      b := t.kind == k;
    }

    method Advance() returns (t: Token)
      requires Valid()
      modifies this
      ensures Valid() && current == AdvanceAt(tokens, old(current))
      ensures t == if current == 0 then tokens[|tokens| - 1] else tokens[current - 1]
    {
      var atEnd := IsAtEnd();
      if !atEnd {
        current := current + 1;
      }
      t := Previous();
    }

    /** Takes the current token if its kind is one of `kinds`, trying them in order. */
    method Match(kinds: seq<TokenKind>) returns (b: bool)
      requires Valid()
      modifies this
      ensures Valid()
      ensures b <==> !AtEnd(tokens, old(current)) && tokens[old(current)].kind in kinds
      ensures current == if b then old(current) + 1 else old(current)
    {
      var i := 0;
      while i < |kinds|
        invariant 0 <= i <= |kinds| && current == old(current)
        invariant forall j :: 0 <= j < i ==> !CheckAt(tokens, current, kinds[j])
      {
        var c := Check(kinds[i]);
        if c {
          var t := Advance();
          return true;
        }
        i := i + 1;
      }
      return false;
    }

    method Consume(k: TokenKind) returns (r: Result<Token, ParseError>)
      requires Valid()
      modifies this
      ensures Valid()
      ensures Agrees(r, ConsumeAt(tokens, old(current), k), current)
    {
      var c := Check(k);
      if c {
        var t := Advance();
        assert ConsumeAt(tokens, old(current), k) == Ok((t, current));
        return Ok(t);
      }
      var t := Peek();
      assert ConsumeAt(tokens, old(current), k) == Err(Unexpected(t));
      return Err(Unexpected(t));
    }

    // ------------------------------------------------------------ expressions

    method Expression() returns (r: Result<Expr, ParseError>)
      requires Valid()
      modifies this
      ensures Valid()
      ensures Agrees(r, ExprAt(tokens, old(current)), current)
      decreases |tokens| - current, 3 * BinaryLevels + 4
    {
      r := BinaryLevel(0);
    }

    /** One of the six binary levels, from `or_expr` (level 0) to `multiplicative` (level 5). */
    method BinaryLevel(level: nat) returns (r: Result<Expr, ParseError>)
      requires Valid() && level < BinaryLevels
      modifies this
      ensures Valid()
      ensures Agrees(r, LevelAt(tokens, old(current), level), current)
      decreases |tokens| - current, 3 * (BinaryLevels - level) + 3
    {
      var start := current;
      var first := Operand(level);
      if first.Err? {
        return Err(first.error);
      }
      var expr := first.value;
      while true
        invariant Valid() && start < current
        invariant LevelAt(tokens, start, level) == LevelRest(tokens, current, level, expr)
        decreases |tokens| - current
      {
        var more := Match(LevelKinds(level));
        if !more {
          break;
        }
        var opToken := Previous();
        var op := LevelOp(level, opToken.kind).value;
        var right := Operand(level);
        if right.Err? {
          return Err(right.error);
        }
        expr := BinaryOp(expr, op, right.value);
      }
      return Ok(expr);
    }

    /** The operand of a binary level: the next level, or a unary expression below the last one. */
    method Operand(level: nat) returns (r: Result<Expr, ParseError>)
      requires Valid() && level < BinaryLevels
      modifies this
      ensures Valid()
      ensures Agrees(r, NextLevelAt(tokens, old(current), level), current)
      decreases |tokens| - current, 3 * (BinaryLevels - level) + 2
    {
      if level == BinaryLevels - 1 {
        r := Unary();
      } else {
        r := BinaryLevel(level + 1);
      }
    }

    method Unary() returns (r: Result<Expr, ParseError>)
      requires Valid()
      modifies this
      ensures Valid()
      ensures Agrees(r, UnaryAt(tokens, old(current)), current)
      decreases |tokens| - current, 2
    {
      var isMinus := Check(Minus);
      var isNot := Check(Not);
      if isMinus || isNot {
        var opToken := Advance();
        var operand := Unary();
        if operand.Err? {
          return Err(operand.error);
        }
        return Ok(UnaryOp(if opToken.kind == Minus then NegOp else NotOp, operand.value));
      }
      r := Primary();
    }

    method Primary() returns (r: Result<Expr, ParseError>)
      requires Valid()
      modifies this
      ensures Valid()
      ensures Agrees(r, PrimaryAt(tokens, old(current)), current)
      decreases |tokens| - current, 1
    {
      var t := Peek();
      var isInt := Check(IntLiteral);
      var isFloat := Check(FloatLiteral);
      var isBool := Check(BoolLiteral);
      var isName := Check(TokenKind.Identifier);
      if isInt || isFloat || isBool || isName {
        var taken := Advance();
        assert taken == t;
        if isInt {
          r := Ok(Literal(IntLit(DecimalValue(t.lexeme))));
        } else if isFloat {
          r := Ok(Literal(FloatLit(t.lexeme)));
        } else if isBool {
          r := Ok(Literal(BoolLit(t.lexeme == "true")));
        } else {
          r := Ok(Expr.Identifier(t.lexeme));
        }
      } else {
        r := Parenthesised();
      }
    }

    /** The last alternative of primary: `( expression )`, or an error at any other token. */
    method Parenthesised() returns (r: Result<Expr, ParseError>)
      requires Valid() && (StartsPrimary(tokens[current].kind) ==> tokens[current].kind == LParen)
      modifies this
      ensures Valid()
      ensures Agrees(r, PrimaryAt(tokens, old(current)), current)
      decreases |tokens| - current, 0
    {
      var m := Match([LParen]);
      if m {
        var inner := Expression();
        if inner.Err? {
          return Err(inner.error);
        }
        var close := Consume(RParen);
        if close.Err? {
          return Err(close.error);
        }
        return Ok(inner.value);
      }
      var t := Peek();
      return Err(Unexpected(t));
    }

    // ------------------------------------------------------------ statements

    method StatementList() returns (r: Result<seq<Stmt>, ParseError>)
      requires Valid()
      modifies this
      ensures Valid()
      ensures Agrees(r, StatementsAt(tokens, old(current), []), current)
      decreases |tokens| - current, 2
    {
      var start := current;
      var statements: seq<Stmt> := [];
      while true
        invariant Valid() && start <= current
        invariant StatementsAt(tokens, start, []) == StatementsAt(tokens, current, statements)
        decreases |tokens| - current
      {
        var atEnd := IsAtEnd();
        if atEnd {
          break;
        }
        var close := Check(RBrace);
        if close {
          break;
        }
        var s := Statement();
        if s.Err? {
          return Err(s.error);
        }
        statements := statements + [s.value];
      }
      return Ok(statements);
    }

    method Statement() returns (r: Result<Stmt, ParseError>)
      requires Valid()
      modifies this
      ensures Valid()
      ensures Agrees(r, StatementAt(tokens, old(current)), current)
      decreases |tokens| - current, 1
    {
      var t := Peek();
      var isLet := Check(Let);
      var isWhile := Check(While);
      var isIf := Check(If);
      var isBreak := Check(Break);
      var isPrint := Check(Print);
      var isName := Check(TokenKind.Identifier);
      if isLet || isWhile || isIf || isBreak || isPrint {
        var keyword := Advance();
        if isLet {
          r := VariableDeclaration();
        } else if isWhile {
          r := WhileLoop();
        } else if isIf {
          r := IfStatement();
        } else if isBreak {
          var semi := Consume(Semicolon);
          r := if semi.Err? then Err(semi.error) else Ok(BreakStatement);
        } else {
          r := PrintStatement();
        }
      } else if isName {
        r := Assignment();
      } else {
        r := Err(Unexpected(t));
      }
    }

    method VariableDeclaration() returns (r: Result<Stmt, ParseError>)
      requires Valid()
      modifies this
      ensures Valid()
      ensures Agrees(r, VariableDeclAt(tokens, old(current)), current)
      decreases |tokens| - current, 0
    {
      var name := Consume(TokenKind.Identifier);
      if name.Err? {
        return Err(name.error);
      }
      var colon := Consume(Colon);
      if colon.Err? {
        return Err(colon.error);
      }
      var ty := Consume(Type);
      if ty.Err? {
        return Err(ty.error);
      }
      var eq := Consume(Equals);
      if eq.Err? {
        return Err(eq.error);
      }
      var value := Expression();
      if value.Err? {
        return Err(value.error);
      }
      var semi := Consume(Semicolon);
      if semi.Err? {
        return Err(semi.error);
      }
      return Ok(VariableDecl(name.value.lexeme, TypeNamed(ty.value.lexeme), value.value));
    }

    /** The parenthesised condition and the block after `while`, `if` or `else if`. */
    method ConditionBlock() returns (r: Result<(Expr, seq<Stmt>), ParseError>)
      requires Valid()
      modifies this
      ensures Valid()
      ensures Agrees(r, ConditionBlockAt(tokens, old(current)), current)
      decreases |tokens| - current, 0
    {
      var open := Consume(LParen);
      if open.Err? {
        return Err(open.error);
      }
      var cond := Expression();
      if cond.Err? {
        return Err(cond.error);
      }
      var close := Consume(RParen);
      if close.Err? {
        return Err(close.error);
      }
      var body := Block();
      if body.Err? {
        return Err(body.error);
      }
      return Ok((cond.value, body.value));
    }

    method WhileLoop() returns (r: Result<Stmt, ParseError>)
      requires Valid()
      modifies this
      ensures Valid()
      ensures Agrees(r, WhileLoopAt(tokens, old(current)), current)
      decreases |tokens| - current, 1
    {
      var c := ConditionBlock();
      if c.Err? {
        return Err(c.error);
      }
      return Ok(Stmt.WhileLoop(c.value.0, c.value.1));
    }

    method IfStatement() returns (r: Result<Stmt, ParseError>)
      requires Valid()
      modifies this
      ensures Valid()
      ensures Agrees(r, IfStatementAt(tokens, old(current)), current)
      decreases |tokens| - current, 1
    {
      var c := ConditionBlock();
      if c.Err? {
        return Err(c.error);
      }
      var elses := ElseIfList();
      if elses.Err? {
        return Err(elses.error);
      }
      return Ok(Stmt.IfStatement(c.value.0, c.value.1, elses.value));
    }

    method ElseIfList() returns (r: Result<seq<Stmt>, ParseError>)
      requires Valid()
      modifies this
      ensures Valid()
      ensures Agrees(r, ElseIfListAt(tokens, old(current), []), current)
      decreases |tokens| - current, 0
    {
      var start := current;
      var clauses: seq<Stmt> := [];
      while true
        invariant Valid() && start <= current
        invariant ElseIfListAt(tokens, start, []) == ElseIfListAt(tokens, current, clauses)
        decreases |tokens| - current
      {
        ghost var at := current;
        var more := Check(Else);
        if !more {
          break;
        }
        var elseToken := Advance();
        var last;
        r, last := ElseClause(at, clauses);
        if r.Err? || last {
          return;
        }
        clauses := r.value;
      }
      return Ok(clauses);
    }

    /**
      One turn of the clause loop, from the token after `else`: an `else if`
      clause is appended and the loop goes on, or a bare `else` is appended and
      ends the list (`last`).
    */
    method ElseClause(ghost at: nat, clauses: seq<Stmt>) returns (r: Result<seq<Stmt>, ParseError>, last: bool)
      requires Valid() && current == at + 1 && CheckAt(tokens, at, Else)
      modifies this
      ensures Valid()
      ensures r.Err? ==> ElseIfListAt(tokens, at, clauses) == Err(r.error)
      ensures r.Ok? && last ==> ElseIfListAt(tokens, at, clauses) == Ok((r.value, current))
      ensures r.Ok? && !last ==> at < current && ElseIfListAt(tokens, at, clauses) == ElseIfListAt(tokens, current, r.value)
      decreases |tokens| - current, 4
    {
      var isElseIf := Check(If);
      if !isElseIf {
        var body := Block();
        ElseClauseStep(tokens, at, clauses, body, current);
        if body.Err? {
          return Err(body.error), true;
        }
        return Ok(clauses + [ElseStatement(body.value)]), true;
      }
      var ifToken := Advance();
      var c := ConditionBlock();
      ElseIfClauseStep(tokens, at, clauses, c, current);
      if c.Err? {
        return Err(c.error), true;
      }
      return Ok(clauses + [Stmt.IfStatement(c.value.0, c.value.1, [])]), false;
    }

    method PrintStatement() returns (r: Result<Stmt, ParseError>)
      requires Valid()
      modifies this
      ensures Valid()
      ensures Agrees(r, PrintStatementAt(tokens, old(current)), current)
      decreases |tokens| - current, 0
    {
      var open := Consume(LParen);
      if open.Err? {
        return Err(open.error);
      }
      var e := Expression();
      if e.Err? {
        return Err(e.error);
      }
      var close := Consume(RParen);
      if close.Err? {
        return Err(close.error);
      }
      var semi := Consume(Semicolon);
      if semi.Err? {
        return Err(semi.error);
      }
      return Ok(Stmt.PrintStatement(e.value));
    }

    method Assignment() returns (r: Result<Stmt, ParseError>)
      requires Valid()
      modifies this
      ensures Valid()
      ensures Agrees(r, AssignmentAt(tokens, old(current)), current)
      decreases |tokens| - current, 0
    {
      var name := Consume(TokenKind.Identifier);
      if name.Err? {
        return Err(name.error);
      }
      var eq := Consume(Equals);
      if eq.Err? {
        return Err(eq.error);
      }
      var value := Expression();
      if value.Err? {
        return Err(value.error);
      }
      var semi := Consume(Semicolon);
      if semi.Err? {
        return Err(semi.error);
      }
      return Ok(AssignmentStmt(name.value.lexeme, value.value));
    }

    method Block() returns (r: Result<seq<Stmt>, ParseError>)
      requires Valid()
      modifies this
      ensures Valid()
      ensures Agrees(r, BlockAt(tokens, old(current)), current)
      decreases |tokens| - current, 3
    {
      var open := Consume(LBrace);
      if open.Err? {
        return Err(open.error);
      }
      var stmts := StatementList();
      if stmts.Err? {
        return Err(stmts.error);
      }
      var close := Consume(RBrace);
      if close.Err? {
        return Err(close.error);
      }
      return Ok(stmts.value);
    }

    /** program: the statement list, which must reach end of input. */
    method ParseProgram() returns (r: Result<Program, ParseError>)
      requires Valid() && current == 0
      modifies this
      ensures r == Grammar.ParseProgram(tokens)
    {
      var stmts := StatementList();
      if stmts.Err? {
        return Err(stmts.error);
      }
      var atEnd := IsAtEnd();
      if !atEnd {
        var t := Peek();
        return Err(Unexpected(t));
      }
      return Ok(Program(stmts.value));
    }
  }

  /** Parses a token list with a fresh parser. */
  method Parse(tokens: seq<Token>) returns (r: Result<Program, ParseError>)
    requires ValidTokens(tokens)
    ensures r == Grammar.ParseProgram(tokens)
  {
    var parser := new Parser(tokens);
    r := parser.ParseProgram();
  }
}
