/**
  The static checks of the semantic analyzer, as functions: the innermost
  binding of a name in a stack of scopes, the type of an expression, and the
  effect of a statement on the scopes. Every check stops at its first error.
  The imperative `SemanticAnalyzer` class is proved to compute these functions.
*/
module Typing {
  import opened Wrappers
  import opened Ast

  /** Innermost scope last; each maps a declared name to its type. */
  type Scopes = seq<map<string, Type>>

  datatype SemanticError =
    | AlreadyDeclared(name: string)
    | Undeclared(name: string)
    | DeclarationMismatch(declared: Type, found: Type)
    | AssignmentMismatch(name: string, expected: Type, found: Type)
    | ConditionNotBool(found: Type)
    | BreakOutsideLoop
    | OperandMismatch(left: Type, op: BinOp, right: Type)
    | ArithmeticOperand(found: Type)
    | ComparisonOperand(found: Type)
    | LogicalOperand(found: Type)
    | NegationOperand(found: Type)
    | NotOperand(found: Type)

  predicate IsNumeric(t: Type) {
    t == IntType || t == FloatType
  }

  predicate IsArithmetic(op: BinOp) {
    op == AddOp || op == SubOp || op == MulOp || op == DivOp
  }

  predicate IsComparison(op: BinOp) {
    op == LessOp || op == GreaterOp || op == LessEqualOp || op == GreaterEqualOp
  }

  predicate IsEquality(op: BinOp) {
    op == EqualOp || op == NotEqualOp
  }

  predicate IsLogical(op: BinOp) {
    op == AndOp || op == OrOp
  }

  /** Some scope declares `name`. */
  predicate Declared(scopes: Scopes, name: string) {
    exists i :: 0 <= i < |scopes| && name in scopes[i]
  }

  /** The type of the innermost declaration of `name`, searching from the innermost scope outwards. */
  function Lookup(scopes: Scopes, name: string): (r: Option<Type>)
    ensures r.Some? <==> Declared(scopes, name)
    ensures r.Some? ==> exists i :: 0 <= i < |scopes| && name in scopes[i] && scopes[i][name] == r.value &&
                                  (forall j :: i < j < |scopes| ==> name !in scopes[j])
  {
    LookupBelow(scopes, name, |scopes|)
  }

  /** The search of Lookup over the `k` outermost scopes, from scope `k - 1` outwards. */
  function LookupBelow(scopes: Scopes, name: string, k: nat): (r: Option<Type>)
    requires k <= |scopes|
    ensures r.Some? <==> exists i :: 0 <= i < k && name in scopes[i]
    ensures r.Some? ==> exists i :: 0 <= i < k && name in scopes[i] && scopes[i][name] == r.value &&
                                  (forall j :: i < j < k ==> name !in scopes[j])
  {
    if k == 0 then None
    else if name in scopes[k - 1] then Some(scopes[k - 1][name])
    else LookupBelow(scopes, name, k - 1)
  }

  /** Adds `name` to the innermost scope; declaring it twice in one scope is an error. */
  function Declare(scopes: Scopes, name: string, t: Type): (r: Result<Scopes, SemanticError>)
    requires |scopes| > 0
    ensures r.Err? <==> name in scopes[|scopes| - 1]
    ensures r.Err? ==> r.error == AlreadyDeclared(name)
    ensures r.Ok? ==> |r.value| == |scopes| && r.value[..|scopes| - 1] == scopes[..|scopes| - 1]
    ensures r.Ok? ==> r.value[|scopes| - 1] == scopes[|scopes| - 1][name := t]
  {
    var top := scopes[|scopes| - 1];
    if name in top then Err(AlreadyDeclared(name)) else Ok(scopes[..|scopes| - 1] + [top[name := t]])
  }

  /** The type of an expression, or the first error found checking it, left operand first. */
  function TypeOf(scopes: Scopes, e: Expr): (r: Result<Type, SemanticError>)
    ensures r.Err? && r.error.Undeclared? ==> r.error.name in Names(e) && !Declared(scopes, r.error.name)
  {
    match e
    case Literal(lit) => Ok(LiteralType(lit))
    case Identifier(name) =>
      (match Lookup(scopes, name)
       case None => Err(Undeclared(name))
       case Some(t) => Ok(t))
    case UnaryOp(uop, operand) =>
      var t :- TypeOf(scopes, operand);
      if uop == NegOp then
        if IsNumeric(t) then Ok(t) else Err(NegationOperand(t))
      else
        if t == BoolType then Ok(BoolType) else Err(NotOperand(t))
    case BinaryOp(left, op, right) =>
      var lt :- TypeOf(scopes, left);
      var rt :- TypeOf(scopes, right);
      if lt != rt then Err(OperandMismatch(lt, op, rt))
      else if IsArithmetic(op) then
        if IsNumeric(lt) then Ok(lt) else Err(ArithmeticOperand(lt))
      else if IsComparison(op) then
        if IsNumeric(lt) then Ok(BoolType) else Err(ComparisonOperand(lt))
      else if IsEquality(op) then Ok(BoolType)
      else
        if lt == BoolType then Ok(BoolType) else Err(LogicalOperand(lt))
  }

  /**
    The scopes after a statement, given the number of enclosing loops. A body is
    checked in a fresh innermost scope that is dropped afterwards, so only a
    declaration changes them, directly or as a clause of an if statement (whose
    clauses are visited in the enclosing scopes like a statement list). A print
    statement's expression is not checked.
  */
  function CheckStmt(scopes: Scopes, depth: nat, s: Stmt): (r: Result<Scopes, SemanticError>)
    requires |scopes| > 0
    ensures r.Ok? ==> |r.value| == |scopes| && r.value[..|scopes| - 1] == scopes[..|scopes| - 1]
    ensures r.Ok? ==> scopes[|scopes| - 1].Items <= r.value[|scopes| - 1].Items
    ensures r.Ok? && !s.VariableDecl? && !s.IfStatement? ==> r.value == scopes
    decreases s
  {
    match s
    case VariableDecl(name, ty, value) =>
      var t :- TypeOf(scopes, value);
      if t != ty then Err(DeclarationMismatch(ty, t)) else Declare(scopes, name, ty)
    case WhileLoop(condition, body) =>
      var t :- TypeOf(scopes, condition);
      if t != BoolType then Err(ConditionNotBool(t))
      else
        var _ :- CheckBlock(scopes, depth + 1, body);
        Ok(scopes)
    case IfStatement(condition, ifBody, elseIfList) =>
      var t :- TypeOf(scopes, condition);
      if t != BoolType then Err(ConditionNotBool(t))
      else
        var _ :- CheckBlock(scopes, depth, ifBody);
        CheckStmts(scopes, depth, elseIfList)
    case ElseStatement(body) =>
      var _ :- CheckBlock(scopes, depth, body);
      Ok(scopes)
    case AssignmentStmt(name, value) =>
      (match Lookup(scopes, name)
       case None => Err(Undeclared(name))
       case Some(vt) =>
         var t :- TypeOf(scopes, value);
         if vt != t then Err(AssignmentMismatch(name, vt, t)) else Ok(scopes))
    case BreakStatement => if depth == 0 then Err(BreakOutsideLoop) else Ok(scopes)
    case PrintStatement(_) => Ok(scopes)
  }

  /** A body, checked in a new innermost scope that is dropped afterwards. */
  function CheckBlock(scopes: Scopes, depth: nat, body: seq<Stmt>): (r: Result<Scopes, SemanticError>)
    requires |scopes| > 0
    ensures r.Ok? ==> r.value == scopes
    decreases body, 1
  {
    var inner :- CheckStmts(scopes + [map[]], depth, body);
    assert inner[..|scopes|] == (scopes + [map[]])[..|scopes|] == scopes;
    Ok(inner[..|scopes|])
  }

  /** A statement list, in order, each statement seeing the declarations before it. */
  function CheckStmts(scopes: Scopes, depth: nat, ss: seq<Stmt>): (r: Result<Scopes, SemanticError>)
    requires |scopes| > 0
    ensures r.Ok? ==> |r.value| == |scopes| && r.value[..|scopes| - 1] == scopes[..|scopes| - 1]
    ensures r.Ok? ==> scopes[|scopes| - 1].Items <= r.value[|scopes| - 1].Items
    decreases ss, 0
  {
    if ss == [] then Ok(scopes)
    else
      var next :- CheckStmt(scopes, depth, ss[0]);
      assert next[..|scopes| - 1] == scopes[..|scopes| - 1];
      CheckStmts(next, depth, ss[1..])
  }

  /** A program is checked in one empty global scope, outside any loop. */
  function CheckProgram(p: Program): (r: Result<Scopes, SemanticError>)
    ensures r.Ok? ==> |r.value| == 1
  {
    CheckStmts([map[]], 0, p.statements)
  }
}
