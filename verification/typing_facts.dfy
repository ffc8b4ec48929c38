/** What the static checks guarantee about the programs they accept. */
module TypingFacts {
  import opened Wrappers
  import opened Ast
  import opened Typing

  /** An expression that type-checks reads only declared names. */
  lemma {:induction false} TypedNamesDeclared(scopes: Scopes, e: Expr)
    requires TypeOf(scopes, e).Ok?
    ensures forall n :: n in Names(e) ==> Declared(scopes, n)
  {
    match e
    case Literal(_) =>
    case Identifier(_) =>
    case UnaryOp(_, operand) =>
      TypedNamesDeclared(scopes, operand);
    case BinaryOp(left, _, right) =>
      TypedNamesDeclared(scopes, left);
      TypedNamesDeclared(scopes, right);
  }

  /**
    The type an accepted expression has: arithmetic keeps the (numeric) type of
    both operands, negation the numeric type of its operand, and every other
    operator yields a boolean.
  */
  lemma TypeOfShape(scopes: Scopes, e: Expr)
    requires TypeOf(scopes, e).Ok?
    ensures e.Literal? ==> TypeOf(scopes, e).value == LiteralType(e.lit)
    ensures e.Identifier? ==> Lookup(scopes, e.id) == Some(TypeOf(scopes, e).value)
    ensures e.BinaryOp? ==> TypeOf(scopes, e.left).Ok? && TypeOf(scopes, e.right).Ok? &&
                            TypeOf(scopes, e.left).value == TypeOf(scopes, e.right).value
    ensures e.BinaryOp? && IsArithmetic(e.op) ==>
              IsNumeric(TypeOf(scopes, e).value) && TypeOf(scopes, e).value == TypeOf(scopes, e.left).value
    ensures e.BinaryOp? && (IsComparison(e.op) || IsEquality(e.op) || IsLogical(e.op)) ==>
              TypeOf(scopes, e).value == BoolType
    ensures e.BinaryOp? && (IsComparison(e.op)) ==> IsNumeric(TypeOf(scopes, e.left).value)
    ensures e.BinaryOp? && (IsLogical(e.op)) ==> TypeOf(scopes, e.left).value == BoolType
    ensures e.UnaryOp? && e.uop == NegOp ==>
              IsNumeric(TypeOf(scopes, e).value) && TypeOf(scopes, e.operand) == TypeOf(scopes, e)
    ensures e.UnaryOp? && e.uop == NotOp ==>
              TypeOf(scopes, e).value == BoolType && TypeOf(scopes, e.operand) == Ok(BoolType)
  {
  }

  /** After declaring a name its innermost binding is the new one; other names resolve as before. */
  lemma LookupAfterDeclare(scopes: Scopes, name: string, t: Type, other: string)
    requires |scopes| > 0 && Declare(scopes, name, t).Ok?
    ensures Lookup(Declare(scopes, name, t).value, name) == Some(t)
    ensures other != name ==> Lookup(Declare(scopes, name, t).value, other) == Lookup(scopes, other)
  {
    var after := Declare(scopes, name, t).value;
    var n := |scopes| - 1;
    assert after == scopes[..n] + [scopes[n][name := t]];
    if other != name && other !in scopes[n] {
      LookupBelowAgree(after, scopes, other, n);
    }
  }

  /** The search over the `k` outermost scopes sees only those scopes. */
  lemma {:induction false} LookupBelowAgree(a: Scopes, b: Scopes, name: string, k: nat)
    requires k <= |a| && k <= |b| && forall i :: 0 <= i < k ==> a[i] == b[i]
    ensures LookupBelow(a, name, k) == LookupBelow(b, name, k)
  {
    if k > 0 && name !in a[k - 1] {
      LookupBelowAgree(a, b, name, k - 1);
    }
  }

  /** A name may be declared again in an inner scope even when an outer scope declares it. */
  lemma ShadowingAllowed(scopes: Scopes, name: string, t: Type)
    requires |scopes| > 0
    ensures Declare(scopes + [map[]], name, t) == Ok(scopes + [map[name := t]])
  {
  }

  /**
    Once the innermost scope has a name, a later declaration of that name in
    the same statement list is rejected.
  */
  lemma {:induction false} DeclaredRejected(scopes: Scopes, depth: nat, ss: seq<Stmt>, j: nat, name: string)
    requires |scopes| > 0 && name in scopes[|scopes| - 1]
    requires j < |ss| && ss[j].VariableDecl? && ss[j].name == name
    ensures CheckStmts(scopes, depth, ss).Err?
    decreases ss
  {
    var first := CheckStmt(scopes, depth, ss[0]);
    if j > 0 && first.Ok? {
      var top := |scopes| - 1;
      assert (name, scopes[top][name]) in scopes[top].Items;
      assert name in first.value[top];
      assert CheckStmts(scopes, depth, ss) == CheckStmts(first.value, depth, ss[1..]);
      DeclaredRejected(first.value, depth, ss[1..], j - 1, name);
    }
  }

  /** Two declarations of one name in the same statement list, at any distance, are rejected. */
  lemma {:induction false} RedeclarationRejected(scopes: Scopes, depth: nat, ss: seq<Stmt>, i: nat, j: nat)
    requires |scopes| > 0 && i < j < |ss|
    requires ss[i].VariableDecl? && ss[j].VariableDecl? && ss[i].name == ss[j].name
    ensures CheckStmts(scopes, depth, ss).Err?
    decreases ss
  {
    var first := CheckStmt(scopes, depth, ss[0]);
    if first.Ok? {
      assert CheckStmts(scopes, depth, ss) == CheckStmts(first.value, depth, ss[1..]);
      if i == 0 {
        DeclaredRejected(first.value, depth, ss[1..], j - 1, ss[0].name);
      } else {
        RedeclarationRejected(first.value, depth, ss[1..], i - 1, j - 1);
      }
    }
  }

  /**
    A declaration is accepted exactly when its initializer has the declared
    type and the innermost scope does not have the name yet. The initializer is
    checked before the name is bound, so every name it reads was declared
    before; afterwards the name resolves to the declared type.
  */
  lemma DeclarationRule(scopes: Scopes, depth: nat, name: string, ty: Type, value: Expr)
    requires |scopes| > 0
    ensures var r := CheckStmt(scopes, depth, VariableDecl(name, ty, value));
            && (r.Ok? <==> TypeOf(scopes, value) == Ok(ty) && name !in scopes[|scopes| - 1])
            && (r.Ok? ==> Lookup(r.value, name) == Some(ty))
            && (r.Ok? ==> forall n :: n in Names(value) ==> Declared(scopes, n))
            && (TypeOf(scopes, value).Ok? && TypeOf(scopes, value).value != ty ==>
                  r == Err(DeclarationMismatch(ty, TypeOf(scopes, value).value)))
  {
    if CheckStmt(scopes, depth, VariableDecl(name, ty, value)).Ok? {
      TypedNamesDeclared(scopes, value);
      LookupAfterDeclare(scopes, name, ty, name);
    }
  }

  /**
    An assignment is accepted exactly when its target is declared in some
    scope and the value has the target's type; it changes no scope. The target
    is looked up before the value is checked.
  */
  lemma AssignmentRule(scopes: Scopes, depth: nat, name: string, value: Expr)
    requires |scopes| > 0
    ensures var r := CheckStmt(scopes, depth, AssignmentStmt(name, value));
            && (r.Ok? <==> Lookup(scopes, name).Some? && TypeOf(scopes, value) == Ok(Lookup(scopes, name).value))
            && (r.Ok? ==> r.value == scopes)
            && (Lookup(scopes, name).None? ==> r == Err(Undeclared(name)))
  {
  }

  /**
    The condition of a while loop or an if statement must be a boolean: any
    other type is rejected. A loop is accepted exactly when its body is, one
    loop deeper; an if statement when its body and its clauses are.
  */
  lemma ConditionRule(scopes: Scopes, depth: nat, s: Stmt)
    requires |scopes| > 0 && (s.WhileLoop? || s.IfStatement?)
    ensures var r, t := CheckStmt(scopes, depth, s), TypeOf(scopes, s.condition);
            && (t.Ok? && t.value != BoolType ==> r == Err(ConditionNotBool(t.value)))
            && (r.Ok? ==> t == Ok(BoolType))
            && (s.WhileLoop? ==> (r.Ok? <==> t == Ok(BoolType) && CheckBlock(scopes, depth + 1, s.body).Ok?))
            && (s.IfStatement? ==>
                  (r.Ok? <==> t == Ok(BoolType) && CheckBlock(scopes, depth, s.ifBody).Ok? &&
                              CheckStmts(scopes, depth, s.elseIfList).Ok?))
  {
  }

  /** A print statement's expression is not checked: any print statement is accepted and changes nothing. */
  lemma PrintUnchecked(scopes: Scopes, depth: nat, e: Expr)
    requires |scopes| > 0
    ensures CheckStmt(scopes, depth, PrintStatement(e)) == Ok(scopes)
  {
  }

  /** A `break` that is not inside a while loop of the same statement (possibly nested in if or else bodies). */
  predicate FreeBreak(s: Stmt)
    decreases s
  {
    match s
    case BreakStatement => true
    case IfStatement(_, ifBody, elseIfList) => FreeBreakIn(ifBody) || FreeBreakIn(elseIfList)
    case ElseStatement(body) => FreeBreakIn(body)
    case _ => false
  }

  predicate FreeBreakIn(ss: seq<Stmt>)
    decreases ss
  {
    ss != [] && (FreeBreak(ss[0]) || FreeBreakIn(ss[1..]))
  }

  /** Outside every loop, a statement holding a free `break` is rejected. */
  lemma {:induction false} FreeBreakRejected(scopes: Scopes, s: Stmt)
    requires |scopes| > 0 && FreeBreak(s)
    ensures CheckStmt(scopes, 0, s).Err?
    decreases s
  {
    match s
    case BreakStatement =>
    case IfStatement(condition, ifBody, elseIfList) =>
      if TypeOf(scopes, condition) == Ok(BoolType) {
        if FreeBreakIn(ifBody) {
          FreeBreakInRejected(scopes + [map[]], ifBody);
        } else if CheckBlock(scopes, 0, ifBody).Ok? {
          FreeBreakInRejected(scopes, elseIfList);
        }
      }
    case ElseStatement(body) =>
      FreeBreakInRejected(scopes + [map[]], body);
  }

  lemma {:induction false} FreeBreakInRejected(scopes: Scopes, ss: seq<Stmt>)
    requires |scopes| > 0 && FreeBreakIn(ss)
    ensures CheckStmts(scopes, 0, ss).Err?
    decreases ss
  {
    if FreeBreak(ss[0]) {
      FreeBreakRejected(scopes, ss[0]);
    } else {
      var first := CheckStmt(scopes, 0, ss[0]);
      if first.Ok? {
        FreeBreakInRejected(first.value, ss[1..]);
      }
    }
  }

  /** A program whose top level holds a free `break` is rejected. */
  lemma FreeBreakProgramRejected(p: Program)
    requires FreeBreakIn(p.statements)
    ensures CheckProgram(p).Err?
  {
    FreeBreakInRejected([map[]], p.statements);
  }

  /** Inside a loop, `break` is accepted. */
  lemma BreakInLoopAccepted(scopes: Scopes, depth: nat, condition: Expr)
    requires |scopes| > 0 && TypeOf(scopes, condition) == Ok(BoolType)
    ensures CheckStmt(scopes, depth, WhileLoop(condition, [BreakStatement])) == Ok(scopes)
  {
    var body := [BreakStatement];
    assert CheckStmts(scopes + [map[]], depth + 1, body[1..]) == Ok(scopes + [map[]]);
  }
}
