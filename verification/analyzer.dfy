/**
  The semantic analyzer: a stack of scopes and a loop depth, updated in place
  while it walks the tree. Each visit is proved to compute the corresponding
  function of module Typing; a visit that fails leaves the analyzer in whatever
  state it reached, as the analysis is abandoned at the first error.
*/
module Analyzer {
  import opened Wrappers
  import opened Ast
  import opened Typing

  class SemanticAnalyzer {
    /** Innermost scope last. */
    var scopes: Scopes
    var loopDepth: nat

    /** One empty global scope, outside any loop. */
    constructor()
      ensures scopes == [map[]] && loopDepth == 0
    {
      scopes := [map[]];
      loopDepth := 0;
    }

    method EnterScope()
      modifies this
      ensures scopes == old(scopes) + [map[]] && loopDepth == old(loopDepth)
    {
      scopes := scopes + [map[]];
    }

    method ExitScope()
      requires |scopes| > 0
      modifies this
      ensures scopes == old(scopes)[..|old(scopes)| - 1] && loopDepth == old(loopDepth)
    {
      scopes := scopes[..|scopes| - 1];
    }

    /** Adds `name` to the innermost scope unless that scope already declares it. */
    method Declare(name: string, t: Type) returns (r: Result<(), SemanticError>)
      requires |scopes| > 0
      modifies this
      ensures loopDepth == old(loopDepth)
      ensures r.Ok? <==> Typing.Declare(old(scopes), name, t).Ok?
      ensures r.Ok? ==> scopes == Typing.Declare(old(scopes), name, t).value
      ensures r.Err? ==> r.error == AlreadyDeclared(name) && scopes == old(scopes)
    {
      var top := scopes[|scopes| - 1];
      if name in top {
        return Err(AlreadyDeclared(name));
      }
      scopes := scopes[..|scopes| - 1] + [top[name := t]];
      return Ok(());
    }

    /** Searches the scopes from the innermost outwards. */
    method Lookup(name: string) returns (r: Option<Type>)
      ensures r == Typing.Lookup(scopes, name)
    {
      var i := |scopes|;
      while i > 0
        invariant 0 <= i <= |scopes|
        invariant Typing.Lookup(scopes, name) == LookupBelow(scopes, name, i)
      {
        if name in scopes[i - 1] {
          return Some(scopes[i - 1][name]);
        }
        i := i - 1;
      }
      return None;
    }

    /** The type of an expression, checking its operands left first. */
    method VisitExpr(e: Expr) returns (r: Result<Type, SemanticError>)
      ensures r == TypeOf(scopes, e)
    {
      match e {
        case Literal(lit) =>
          return Ok(LiteralType(lit));
        case Identifier(name) =>
          var t := Lookup(name);
          if t.None? {
            return Err(Undeclared(name));
          }
          return Ok(t.value);
        case UnaryOp(uop, operand) =>
          var operandType :- VisitExpr(operand);
          if uop == NegOp {
            if !IsNumeric(operandType) {
              return Err(NegationOperand(operandType));
            }
            return Ok(operandType);
          }
          if operandType != BoolType {
            return Err(NotOperand(operandType));
          }
          return Ok(BoolType);
        case BinaryOp(left, op, right) =>
          var leftType :- VisitExpr(left);
          var rightType :- VisitExpr(right);
          if leftType != rightType {
            return Err(OperandMismatch(leftType, op, rightType));
          }
          if IsArithmetic(op) {
            if !IsNumeric(leftType) {
              return Err(ArithmeticOperand(leftType));
            }
            return Ok(leftType);
          } else if IsComparison(op) {
            if !IsNumeric(leftType) {
              return Err(ComparisonOperand(leftType));
            }
            return Ok(BoolType);
          } else if IsEquality(op) {
            return Ok(BoolType);
          }
          if leftType != BoolType {
            return Err(LogicalOperand(leftType));
          }
          return Ok(BoolType);
      }
    }

    /** Checks one statement, updating the scopes as Typing.CheckStmt says. */
    method VisitStmt(s: Stmt) returns (r: Result<(), SemanticError>)
      requires |scopes| > 0
      modifies this
      ensures |scopes| > 0
      ensures r.Ok? <==> CheckStmt(old(scopes), old(loopDepth), s).Ok?
      ensures r.Err? ==> r.error == CheckStmt(old(scopes), old(loopDepth), s).error
      ensures r.Ok? ==> scopes == CheckStmt(old(scopes), old(loopDepth), s).value && loopDepth == old(loopDepth)
      decreases s
    {
      match s {
        case VariableDecl(name, ty, value) =>
          var valueType :- VisitExpr(value);
          if valueType != ty {
            return Err(DeclarationMismatch(ty, valueType));
          }
          r := Declare(name, ty);
        case WhileLoop(condition, body) =>
          var conditionType :- VisitExpr(condition);
          if conditionType != BoolType {
            return Err(ConditionNotBool(conditionType));
          }
          loopDepth := loopDepth + 1;
          r := VisitBlock(body);
          if r.Err? {
            return;
          }
          loopDepth := loopDepth - 1;
        case IfStatement(condition, ifBody, elseIfList) =>
          var conditionType :- VisitExpr(condition);
          if conditionType != BoolType {
            return Err(ConditionNotBool(conditionType));
          }
          r := VisitBlock(ifBody);
          if r.Err? {
            return;
          }
          r := VisitAll(elseIfList);
        case ElseStatement(body) =>
          r := VisitBlock(body);
        case AssignmentStmt(name, value) =>
          var varType := Lookup(name);
          if varType.None? {
            return Err(Undeclared(name));
          }
          var valueType :- VisitExpr(value);
          if varType.value != valueType {
            return Err(AssignmentMismatch(name, varType.value, valueType));
          }
          return Ok(());
        case BreakStatement =>
          if loopDepth == 0 {
            return Err(BreakOutsideLoop);
          }
          return Ok(());
        case PrintStatement(_) =>
          return Ok(());
      }
    }

    /** A body in a scope of its own, entered before and left after it. */
    method VisitBlock(body: seq<Stmt>) returns (r: Result<(), SemanticError>)
      requires |scopes| > 0
      modifies this
      ensures |scopes| > 0
      ensures r.Ok? <==> CheckBlock(old(scopes), old(loopDepth), body).Ok?
      ensures r.Err? ==> r.error == CheckBlock(old(scopes), old(loopDepth), body).error
      ensures r.Ok? ==> scopes == old(scopes) && loopDepth == old(loopDepth)
      decreases body, 1
    {
      EnterScope();
      r := VisitAll(body);
      if r.Err? {
        return;
      }
      ExitScope();
    }

    /** Each statement in turn; the first error ends the walk. */
    method VisitAll(ss: seq<Stmt>) returns (r: Result<(), SemanticError>)
      requires |scopes| > 0
      modifies this
      ensures |scopes| > 0
      ensures r.Ok? <==> CheckStmts(old(scopes), old(loopDepth), ss).Ok?
      ensures r.Err? ==> r.error == CheckStmts(old(scopes), old(loopDepth), ss).error
      ensures r.Ok? ==> scopes == CheckStmts(old(scopes), old(loopDepth), ss).value && loopDepth == old(loopDepth)
      decreases ss, 0
    {
      var i := 0;
      while i < |ss|
        invariant 0 <= i <= |ss| && |scopes| > 0 && loopDepth == old(loopDepth)
        invariant CheckStmts(old(scopes), loopDepth, ss) == CheckStmts(scopes, loopDepth, ss[i..])
      {
        ghost var before := scopes;
        assert ss[i..][0] == ss[i] && ss[i..][1..] == ss[i + 1..];
        r := VisitStmt(ss[i]);
        if r.Err? {
          return;
        }
        i := i + 1;
      }
      return Ok(());
    }

    /** Checks every top-level statement of the program. */
    method Analyze(p: Program) returns (r: Result<(), SemanticError>)
      requires |scopes| > 0
      modifies this
      ensures r.Ok? <==> CheckStmts(old(scopes), old(loopDepth), p.statements).Ok?
      ensures r.Err? ==> r.error == CheckStmts(old(scopes), old(loopDepth), p.statements).error
    {
      r := VisitAll(p.statements);
    }
  }

  /** A fresh analyzer accepts exactly the programs Typing.CheckProgram accepts. */
  method Analyze(p: Program) returns (r: Result<(), SemanticError>)
    ensures r.Ok? <==> CheckProgram(p).Ok?
    ensures r.Err? ==> r.error == CheckProgram(p).error
  {
    var analyzer := new SemanticAnalyzer();
    r := analyzer.Analyze(p);
  }
}
