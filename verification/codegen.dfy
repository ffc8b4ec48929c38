/**
  The code generator as an object: the instruction list, the symbol table, the
  label counter and the stack of enclosing loops' end labels are fields it
  updates while it walks the tree. Each visit is proved to append exactly the
  fragment module Lowering assigns to the node and to leave the generator in
  the state Lowering computes; a visit that fails reports the same error, and
  the generator's state after it is not specified, as generation is abandoned.
*/
module CodeGen {
  import opened Wrappers
  import opened Ast
  import opened Machine
  import opened Lowering

  /** A fragment result with `code` in front of what it emits. */
  function Prefixed(code: seq<Entry>, r: Result<(seq<Entry>, Ctx), GenError>): Result<(seq<Entry>, Ctx), GenError> {
    if r.Ok? then Ok((code + r.value.0, r.value.1)) else r
  }

  /** What a visit left behind: the whole instruction list and the generator's state, or its error. */
  function Outcome(r: Result<(), GenError>, instructions: seq<Entry>, ctx: Ctx): Result<(seq<Entry>, Ctx), GenError> {
    if r.Ok? then Ok((instructions, ctx)) else Err(r.error)
  }

  lemma AppendAssoc(a: seq<Entry>, b: seq<Entry>, c: seq<Entry>)
    ensures (a + b) + c == a + (b + c)
  {
  }

  class CodeGenerator {
    var instructions: seq<Entry>
    /** Each declared name's memory slot. */
    var symbolTable: map<string, int>
    /** How many labels have been created. */
    var labelCounter: nat
    /** How many memory slots have been handed out; the next declaration gets this one. */
    var slotCount: nat
    /** The end labels of the loops being generated, innermost last. */
    var loopEndLabels: seq<string>

    /** The generator's state besides its output. */
    function Context(): Ctx
      reads this
    {
      Ctx(symbolTable, labelCounter, slotCount)
    }

    constructor()
      ensures instructions == [] && symbolTable == map[] && loopEndLabels == []
      ensures labelCounter == 0 && slotCount == 0
    {
      instructions := [];
      symbolTable := map[];
      labelCounter := 0;
      slotCount := 0;
      loopEndLabels := [];
    }

    method Emit(op: Opcode, arg: Operand)
      modifies this
      ensures instructions == old(instructions) + [Instr(op, arg)]
      ensures symbolTable == old(symbolTable) && slotCount == old(slotCount)
      ensures labelCounter == old(labelCounter) && loopEndLabels == old(loopEndLabels)
    {
      instructions := instructions + [Instr(op, arg)];
    }

    method EmitLabel(text: string)
      modifies this
      ensures instructions == old(instructions) + [Marker(text)]
      ensures symbolTable == old(symbolTable) && slotCount == old(slotCount)
      ensures labelCounter == old(labelCounter) && loopEndLabels == old(loopEndLabels)
    {
      instructions := instructions + [Marker(text)];
    }

    /** A fresh label: the counter goes up by one and names it. */
    method CreateLabel() returns (name: string)
      modifies this
      ensures labelCounter == old(labelCounter) + 1 && name == LabelName(labelCounter)
      ensures instructions == old(instructions) && symbolTable == old(symbolTable) && slotCount == old(slotCount)
      ensures loopEndLabels == old(loopEndLabels)
    {
      labelCounter := labelCounter + 1;
      name := LabelName(labelCounter);
    }

    /** A jump to label `target`, then the marker of label `name`. */
    method JumpAndMark(target: string, name: string)
      modifies this
      ensures instructions == old(instructions) + [Instr(Jmp, Label(target)), Marker(name + ":")]
      ensures symbolTable == old(symbolTable) && slotCount == old(slotCount)
      ensures labelCounter == old(labelCounter) && loopEndLabels == old(loopEndLabels)
    {
      Emit(Jmp, Label(target));
      EmitLabel(name + ":");
    }

    /** Appends an expression's code; fails on a name with no slot. */
    method VisitExpr(e: Expr) returns (r: Result<(), GenError>)
      modifies this
      ensures var spec := ExprCode(old(symbolTable), e);
              (r.Ok? <==> spec.Ok?) && (r.Ok? ==> instructions == old(instructions) + spec.value) &&
              (r.Err? ==> r.error == spec.error)
      ensures symbolTable == old(symbolTable) && slotCount == old(slotCount)
      ensures labelCounter == old(labelCounter) && loopEndLabels == old(loopEndLabels)
      decreases e, 1
    {
      match e {
        case Literal(lit) =>
          Emit(Push, LiteralOperand(lit));
          return Ok(());
        case Identifier(name) =>
          if name !in symbolTable {
            return Err(UnknownName(name));
          }
          Emit(Load, Num(symbolTable[name]));
          return Ok(());
        case UnaryOp(_, _) =>
          r := VisitUnary(e);
        case BinaryOp(_, _, _) =>
          r := VisitBinary(e);
      }
    }

    /** The operand's code, then the operator's: negation as `0 - x`. */
    method VisitUnary(e: Expr) returns (r: Result<(), GenError>)
      requires e.UnaryOp?
      modifies this
      ensures var spec := ExprCode(old(symbolTable), e);
              (r.Ok? <==> spec.Ok?) && (r.Ok? ==> instructions == old(instructions) + spec.value) &&
              (r.Err? ==> r.error == spec.error)
      ensures symbolTable == old(symbolTable) && slotCount == old(slotCount)
      ensures labelCounter == old(labelCounter) && loopEndLabels == old(loopEndLabels)
      decreases e, 0
    {
      r := VisitExpr(e.operand);
      if r.Err? {
        return;
      }
      ghost var code := ExprCode(symbolTable, e.operand).value;
      match e.uop {
        case NegOp =>
          Emit(Push, Num(0));
          Emit(Swap, NoOperand);
          Emit(Sub, NoOperand);
          assert instructions == ((old(instructions) + code) + [Instr(Push, Num(0))] + [Instr(Swap, NoOperand)]) + [Instr(Sub, NoOperand)];
        case NotOp =>
          Emit(Not, NoOperand);
      }
      AppendAssoc(old(instructions), code, UnaryCode(e.uop));
    }

    /** The left operand's code, the right operand's, then the operator's. */
    method VisitBinary(e: Expr) returns (r: Result<(), GenError>)
      requires e.BinaryOp?
      modifies this
      ensures var spec := ExprCode(old(symbolTable), e);
              (r.Ok? <==> spec.Ok?) && (r.Ok? ==> instructions == old(instructions) + spec.value) &&
              (r.Err? ==> r.error == spec.error)
      ensures symbolTable == old(symbolTable) && slotCount == old(slotCount)
      ensures labelCounter == old(labelCounter) && loopEndLabels == old(loopEndLabels)
      decreases e, 0
    {
      r := VisitExpr(e.left);
      if r.Err? {
        return;
      }
      r := VisitExpr(e.right);
      if r.Err? {
        return;
      }
      ghost var leftCode, rightCode := ExprCode(symbolTable, e.left).value, ExprCode(symbolTable, e.right).value;
      EmitOperator(e.op);
      AppendAssoc(old(instructions), leftCode, rightCode);
      AppendAssoc(old(instructions), leftCode + rightCode, OperatorCode(e.op));
    }

    /** The instructions for a binary operator, after both operands' code. */
    method EmitOperator(op: BinOp)
      modifies this
      ensures instructions == old(instructions) + OperatorCode(op)
      ensures symbolTable == old(symbolTable) && slotCount == old(slotCount)
      ensures labelCounter == old(labelCounter) && loopEndLabels == old(loopEndLabels)
    {
      match op {
        case AddOp => Emit(Add, NoOperand);
        case SubOp => Emit(Sub, NoOperand);
        case MulOp => Emit(Mul, NoOperand);
        case DivOp => Emit(Div, NoOperand);
        case LessOp => Emit(Lt, NoOperand);
        case GreaterOp => Emit(Gt, NoOperand);
        case EqualOp => Emit(Eq, NoOperand);
        case AndOp => Emit(And, NoOperand);
        case OrOp => Emit(Or, NoOperand);
        case LessEqualOp =>
          Emit(Push, Num(1));
          Emit(Add, NoOperand);
          Emit(Lt, NoOperand);
        case GreaterEqualOp =>
          Emit(Push, Num(1));
          Emit(Sub, NoOperand);
          Emit(Gt, NoOperand);
        case NotEqualOp =>
          Emit(Eq, NoOperand);
          Emit(Not, NoOperand);
      }
    }

    /** Appends a statement's fragment; the loop-end stack is the same afterwards. */
    method VisitStmt(s: Stmt) returns (r: Result<(), GenError>)
      modifies this
      ensures Outcome(r, instructions, Context()) == Prefixed(old(instructions), GenStmt(old(Context()), old(loopEndLabels), s))
      ensures r.Ok? ==> loopEndLabels == old(loopEndLabels)
      decreases s, 2
    {
      match s {
        case VariableDecl(name, _, value) =>
          r := VisitExpr(value);
          if r.Err? {
            return;
          }
          ghost var code := ExprCode(old(symbolTable), value).value;
          var slot := slotCount;
          symbolTable := symbolTable[name := slot];
          slotCount := slotCount + 1;
          Emit(Store, Num(slot));
          assert instructions == old(instructions) + (code + [Instr(Store, Num(slot))]);
        case WhileLoop(_, _) =>
          r := VisitWhile(s);
        case IfStatement(_, _, _) =>
          r := VisitIf(s);
        case ElseStatement(_) =>
          return Err(NoVisitMethod);
        case BreakStatement =>
          if loopEndLabels == [] {
            return Err(BreakOutsideLoop);
          }
          Emit(Jmp, Label(loopEndLabels[|loopEndLabels| - 1]));
          return Ok(());
        case PrintStatement(e) =>
          r := VisitExpr(e);
          if r.Err? {
            return;
          }
          Emit(Print, NoOperand);
          assert instructions == old(instructions) + (ExprCode(old(symbolTable), e).value + [Instr(Print, NoOperand)]);
        case AssignmentStmt(name, value) =>
          r := VisitExpr(value);
          if r.Err? {
            return;
          }
          if name !in symbolTable {
            return Err(UnknownName(name));
          }
          Emit(Store, Num(symbolTable[name]));
          assert instructions == old(instructions) + (ExprCode(old(symbolTable), value).value + [Instr(Store, Num(symbolTable[name]))]);
      }
    }

    /**
      A while loop: its end label is pushed on the loop-end stack for the
      body's breaks and popped afterwards.
    */
    method VisitWhile(s: Stmt) returns (r: Result<(), GenError>)
      requires s.WhileLoop?
      modifies this
      ensures Outcome(r, instructions, Context()) ==
              Prefixed(old(instructions), GenWhile(old(Context()), old(loopEndLabels), s.condition, s.body))
      ensures r.Ok? ==> loopEndLabels == old(loopEndLabels)
      decreases s, 1
    {
      ghost var ctx, code, ends := Context(), instructions, loopEndLabels;
      var start := CreateLabel();
      var end := CreateLabel();
      loopEndLabels := loopEndLabels + [end];
      JumpAndMark(start, start);
      ghost var frag := [JumpTo(Jmp, ctx.counter + 1), MarkerOf(ctx.counter + 1)];
      r := VisitExpr(s.condition);
      if r.Err? {
        return;
      }
      ghost var piece := ExprCode(ctx.slots, s.condition).value;
      AppendAssoc(code, frag, piece);
      frag := frag + piece;
      assert instructions == code + frag;
      Emit(Jz, Label(end));
      AppendAssoc(code, frag, [JumpTo(Jz, ctx.counter + 2)]);
      frag := frag + [JumpTo(Jz, ctx.counter + 2)];
      assert instructions == code + frag;
      r := VisitAll(s.body);
      if r.Err? {
        return;
      }
      piece := GenStmts(ctx.(counter := ctx.counter + 2), ends + [end], s.body).value.0;
      AppendAssoc(code, frag, piece);
      frag := frag + piece;
      assert instructions == code + frag;
      ghost var jump, marker := JumpTo(Jmp, ctx.counter + 1), MarkerOf(ctx.counter + 2);
      JumpAndMark(start, end);
      AppendAssoc(code, frag, [jump, marker]);
      frag := frag + [jump, marker];
      assert instructions == code + frag;
      assert GenWhile(ctx, ends, s.condition, s.body) == Ok((frag, Context()));
      loopEndLabels := loopEndLabels[..|loopEndLabels| - 1];
    }

    /**
      An if statement: the end label, then the condition's test jumping to a
      fresh label past the body, then each else-if or else clause in order,
      then the end label's marker.
    */
    method VisitIf(s: Stmt) returns (r: Result<(), GenError>)
      requires s.IfStatement?
      modifies this
      ensures Outcome(r, instructions, Context()) ==
              Prefixed(old(instructions), GenIf(old(Context()), old(loopEndLabels), s.condition, s.ifBody, s.elseIfList))
      ensures r.Ok? ==> loopEndLabels == old(loopEndLabels)
      decreases s, 1
    {
      ghost var ctx, code, ends := Context(), instructions, loopEndLabels;
      var end := CreateLabel();
      var endNumber := labelCounter;
      r := VisitExpr(s.condition);
      if r.Err? {
        return;
      }
      ghost var frag := ExprCode(ctx.slots, s.condition).value;
      assert instructions == code + frag;
      var next := CreateLabel();
      Emit(Jz, Label(next));
      AppendAssoc(code, frag, [JumpTo(Jz, ctx.counter + 2)]);
      frag := frag + [JumpTo(Jz, ctx.counter + 2)];
      assert instructions == code + frag;
      r := VisitAll(s.ifBody);
      if r.Err? {
        return;
      }
      ghost var afterBody := GenStmts(ctx.(counter := ctx.counter + 2), ends, s.ifBody).value;
      AppendAssoc(code, frag, afterBody.0);
      frag := frag + afterBody.0;
      assert instructions == code + frag;
      ghost var jump, marker := JumpTo(Jmp, ctx.counter + 1), MarkerOf(ctx.counter + 2);
      JumpAndMark(end, next);
      AppendAssoc(code, frag, [jump, marker]);
      frag := frag + [jump, marker];
      assert instructions == code + frag;
      r := VisitClauses(endNumber, s.elseIfList);
      if r.Err? {
        return;
      }
      ghost var piece := GenClauses(afterBody.1, ends, ctx.counter + 1, s.elseIfList).value.0;
      AppendAssoc(code, frag, piece);
      frag := frag + piece;
      assert instructions == code + frag;
      EmitLabel(end + ":");
      AppendAssoc(code, frag, [MarkerOf(ctx.counter + 1)]);
      frag := frag + [MarkerOf(ctx.counter + 1)];
      assert instructions == code + frag;
    }

    /** The clauses after an if statement's body, in order; `end` numbers the shared end label. */
    method VisitClauses(end: nat, clauses: seq<Stmt>) returns (r: Result<(), GenError>)
      modifies this
      ensures Outcome(r, instructions, Context()) ==
              Prefixed(old(instructions), GenClauses(old(Context()), old(loopEndLabels), end, clauses))
      ensures r.Ok? ==> loopEndLabels == old(loopEndLabels)
      decreases clauses, 3
    {
      ghost var ctx, code := Context(), instructions;
      var i := 0;
      while i < |clauses|
        invariant 0 <= i <= |clauses| && loopEndLabels == old(loopEndLabels)
        invariant Prefixed(code, GenClauses(ctx, loopEndLabels, end, clauses)) ==
                  Prefixed(instructions, GenClauses(Context(), loopEndLabels, end, clauses[i..]))
      {
        ghost var before, at := instructions, Context();
        assert clauses[i..][0] == clauses[i] && clauses[i..][1..] == clauses[i + 1..];
        r := VisitClause(end, clauses[i]);
        if r.Err? {
          return;
        }
        ghost var first := GenClause(at, loopEndLabels, end, clauses[i]).value.0;
        ghost var rest := GenClauses(Context(), loopEndLabels, end, clauses[i + 1..]);
        assert rest.Ok? ==> before + (first + rest.value.0) == instructions + rest.value.0;
        i := i + 1;
      }
      assert clauses[i..] == [] && instructions + [] == instructions;
      return Ok(());
    }

    /**
      One clause: an else clause's body with no test, or an else-if clause's
      test jumping to a fresh label past its body, whose end jumps to `end`.
    */
    method VisitClause(end: nat, clause: Stmt) returns (r: Result<(), GenError>)
      modifies this
      ensures Outcome(r, instructions, Context()) ==
              Prefixed(old(instructions), GenClause(old(Context()), old(loopEndLabels), end, clause))
      ensures r.Ok? ==> loopEndLabels == old(loopEndLabels)
      decreases clause, 2
    {
      match clause {
        case ElseStatement(body) =>
          r := VisitAll(body);
        case IfStatement(condition, ifBody, _) =>
          r := VisitElseIf(end, condition, ifBody);
        case _ =>
          return Err(MalformedClause);
      }
    }

    /**
      An else-if clause: a fresh label, the condition's test jumping to it, the
      body, a jump to the shared end label numbered `end` and the fresh marker.
    */
    method VisitElseIf(end: nat, condition: Expr, ifBody: seq<Stmt>) returns (r: Result<(), GenError>)
      modifies this
      ensures Outcome(r, instructions, Context()) ==
              Prefixed(old(instructions), GenElseIf(old(Context()), old(loopEndLabels), end, condition, ifBody))
      ensures r.Ok? ==> loopEndLabels == old(loopEndLabels)
      decreases ifBody, 1
    {
      ghost var ctx, code, ends := Context(), instructions, loopEndLabels;
      var next := CreateLabel();
      r := VisitExpr(condition);
      if r.Err? {
        assert GenElseIf(ctx, ends, end, condition, ifBody) == Err(r.error);
        return;
      }
      ghost var frag := ExprCode(ctx.slots, condition).value;
      assert instructions == code + frag;
      Emit(Jz, Label(next));
      AppendAssoc(code, frag, [JumpTo(Jz, ctx.counter + 1)]);
      frag := frag + [JumpTo(Jz, ctx.counter + 1)];
      assert instructions == code + frag;
      r := VisitAll(ifBody);
      if r.Err? {
        assert GenElseIf(ctx, ends, end, condition, ifBody) == Err(r.error);
        return;
      }
      ghost var inner := GenStmts(ctx.(counter := ctx.counter + 1), ends, ifBody).value;
      ghost var piece := inner.0;
      AppendAssoc(code, frag, piece);
      frag := frag + piece;
      assert instructions == code + frag;
      ghost var jump, marker := JumpTo(Jmp, end), MarkerOf(ctx.counter + 1);
      JumpAndMark(LabelName(end), next);
      AppendAssoc(code, frag, [jump, marker]);
      frag := frag + [jump, marker];
      assert instructions == code + frag;
      assert Context() == inner.1;
      assert GenElseIf(ctx, ends, end, condition, ifBody) == Ok((frag, inner.1));
    }

    /** Appends the statements' fragments in order. */
    method VisitAll(ss: seq<Stmt>) returns (r: Result<(), GenError>)
      modifies this
      ensures Outcome(r, instructions, Context()) == Prefixed(old(instructions), GenStmts(old(Context()), old(loopEndLabels), ss))
      ensures r.Ok? ==> loopEndLabels == old(loopEndLabels)
      decreases ss, 0
    {
      ghost var ctx, code := Context(), instructions;
      var i := 0;
      while i < |ss|
        invariant 0 <= i <= |ss| && loopEndLabels == old(loopEndLabels)
        invariant Prefixed(code, GenStmts(ctx, loopEndLabels, ss)) ==
                  Prefixed(instructions, GenStmts(Context(), loopEndLabels, ss[i..]))
      {
        ghost var before, at := instructions, Context();
        assert ss[i..][0] == ss[i] && ss[i..][1..] == ss[i + 1..];
        r := VisitStmt(ss[i]);
        if r.Err? {
          return;
        }
        ghost var first := GenStmt(at, loopEndLabels, ss[i]).value.0;
        ghost var rest := GenStmts(Context(), loopEndLabels, ss[i + 1..]);
        assert rest.Ok? ==> before + (first + rest.value.0) == instructions + rest.value.0;
        i := i + 1;
      }
      assert ss[i..] == [] && instructions + [] == instructions;
      return Ok(());
    }

    /** The whole program's code, ending with HALT. */
    method Generate(p: Program) returns (r: Result<seq<Entry>, GenError>)
      modifies this
      ensures var spec := GenStmts(old(Context()), old(loopEndLabels), p.statements);
              (r.Ok? <==> spec.Ok?) &&
              (r.Ok? ==> r.value == old(instructions) + spec.value.0 + [Instr(Halt, NoOperand)] && r.value == instructions) &&
              (r.Err? ==> r.error == spec.error)
    {
      var v := VisitAll(p.statements);
      if v.Err? {
        return Err(v.error);
      }
      Emit(Halt, NoOperand);
      return Ok(instructions);
    }
  }

  /** A fresh generator's output is the program's code as module Lowering defines it. */
  method Compile(p: Program) returns (r: Result<seq<Entry>, GenError>)
    ensures r == Lowering.Generate(p)
  {
    var g := new CodeGenerator();
    r := g.Generate(p);
    if r.Ok? {
      assert [] + GenStmts(Ctx(map[], 0, 0), [], p.statements).value.0 == GenStmts(Ctx(map[], 0, 0), [], p.statements).value.0;
    }
  }
}
