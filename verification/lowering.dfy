/**
  Code generation as functions: the instructions each expression and
  statement lowers to, the slot each variable is given and the labels each
  construct allocates. A statement yields the fragment it emits and the
  generator's new symbol table and label counter; the enclosing loops' end
  labels, innermost last, are an argument, as the source pushes one before a
  loop body and pops it after.
*/
module Lowering {
  import opened Wrappers
  import opened Numerals
  import opened Ast
  import opened Machine

  datatype GenError =
    | UnknownName(name: string)
    | BreakOutsideLoop
    /** A statement kind the generator has no visit method for (a bare else clause). */
    | NoVisitMethod
    /** An else-if clause that is neither an if statement nor an else clause. */
    | MalformedClause

  /** The name of the `k`-th label created: "L1", "L2", ... */
  function LabelName(k: nat): string {
    "L" + Digits(k)
  }

  /** The number a label name was made from, if it has the form "L" followed by digits. */
  function LabelNumber(name: string): Option<nat> {
    if |name| >= 2 && name[0] == 'L' && AllDigits(name[1..]) then Some(DecimalValue(name[1..])) else None
  }

  function JumpTo(op: Opcode, k: nat): Entry {
    Instr(op, Label(LabelName(k)))
  }

  /** The marker that places label `k`. */
  function MarkerOf(k: nat): Entry {
    Marker(LabelName(k) + ":")
  }

  function Emit(op: Opcode): Entry {
    Instr(op, NoOperand)
  }

  /** A literal's pushed value: booleans as 1 and 0, a float as its text. */
  function LiteralOperand(lit: Lit): (r: Operand)
    ensures lit.IntLit? ==> r == Num(lit.i)
    ensures lit.BoolLit? ==> r.Num? && (r.n == 1 <==> lit.b) && (r.n == 0 <==> !lit.b)
    ensures r.Real? <==> lit.FloatLit?
  {
    match lit
    case IntLit(i) => Num(i)
    case BoolLit(b) => Num(if b then 1 else 0)
    case FloatLit(text) => Real(text)
  }

  /**
    The instructions for a binary operator, as the source writes them: `<=` and
    `>=` through an add or subtract of one, and nothing at all for `!=`.
  */
  function OperatorCodeAsWritten(op: BinOp): (r: seq<Entry>)
    ensures r == [] <==> op == NotEqualOp
    ensures forall i :: 0 <= i < |r| ==> r[i].Instr? && r[i].opcode != Jmp && r[i].opcode != Jz
  {
    match op
    case AddOp => [Emit(Add)]
    case SubOp => [Emit(Sub)]
    case MulOp => [Emit(Mul)]
    case DivOp => [Emit(Div)]
    case LessOp => [Emit(Lt)]
    case GreaterOp => [Emit(Gt)]
    case EqualOp => [Emit(Eq)]
    case AndOp => [Emit(And)]
    case OrOp => [Emit(Or)]
    case LessEqualOp => [Instr(Push, Num(1)), Emit(Add), Emit(Lt)]
    case GreaterEqualOp => [Instr(Push, Num(1)), Emit(Sub), Emit(Gt)]
    case NotEqualOp => []
  }

  /** The instructions for a binary operator, with `!=` lowered to EQ followed by NOT. */
  function OperatorCode(op: BinOp): (r: seq<Entry>)
    ensures op != NotEqualOp ==> r == OperatorCodeAsWritten(op)
  {
    if op == NotEqualOp then [Emit(Eq), Emit(Not)] else OperatorCodeAsWritten(op)
  }

  /** Negation subtracts the operand from 0. */
  function UnaryCode(uop: UnOp): (r: seq<Entry>)
    ensures |r| > 0 && r[|r| - 1] == Emit(if uop == NegOp then Sub else Not)
    ensures forall i :: 0 <= i < |r| ==> r[i].Instr? && r[i].opcode != Jmp && r[i].opcode != Jz
  {
    match uop
    case NegOp => [Instr(Push, Num(0)), Emit(Swap), Emit(Sub)]
    case NotOp => [Emit(Not)]
  }

  /** An expression's code: operands in order, left first, then the operator's instructions. */
  function ExprCode(slots: map<string, int>, e: Expr): (r: Result<seq<Entry>, GenError>)
    ensures r.Err? ==> r.error.UnknownName? && r.error.name in Names(e) && r.error.name !in slots
    ensures r.Ok? <==> Names(e) <= slots.Keys
  {
    match e
    case Literal(lit) => Ok([Instr(Push, LiteralOperand(lit))])
    case Identifier(name) =>
      if name in slots then Ok([Instr(Load, Num(slots[name]))]) else Err(UnknownName(name))
    case UnaryOp(uop, operand) =>
      var code :- ExprCode(slots, operand);
      Ok(code + UnaryCode(uop))
    case BinaryOp(left, op, right) =>
      var leftCode :- ExprCode(slots, left);
      var rightCode :- ExprCode(slots, right);
      Ok(leftCode + rightCode + OperatorCode(op))
  }

  /** The source's slot assignment: the name is (re)bound to the table's current size. */
  function DeclareSlotAsWritten(slots: map<string, int>, name: string): (r: map<string, int>)
    ensures name in r && r[name] == |slots|
    ensures name in slots ==> |r| == |slots|
    ensures name !in slots ==> |r| == |slots| + 1
  {
    slots[name := |slots|]
  }

  /**
    Slot assignment with a fresh slot for every declaration: the name is bound
    to the slot numbered by the count of slots handed out so far, which grows
    by one; a name declared again is rebound, and other names keep their slots.
    While no name is declared twice the count is the table's size, and the
    slot is the one the source assigns.
  */
  function DeclareSlot(ctx: Ctx, name: string): (r: Ctx)
    ensures name in r.slots && r.slots[name] == ctx.slotCount && r.slotCount == ctx.slotCount + 1
    ensures r.counter == ctx.counter
    ensures name !in ctx.slots && ctx.slotCount == |ctx.slots| ==> r.slots == DeclareSlotAsWritten(ctx.slots, name)
  {
    ctx.(slots := ctx.slots[name := ctx.slotCount], slotCount := ctx.slotCount + 1)
  }

  /**
    The generator's state besides its output: the symbol table, the number of
    labels created and the number of memory slots handed out.
  */
  datatype Ctx = Ctx(slots: map<string, int>, counter: nat, slotCount: nat)

  /** A statement's fragment and the generator's state after it. */
  function GenStmt(ctx: Ctx, ends: seq<string>, s: Stmt): (r: Result<(seq<Entry>, Ctx), GenError>)
    ensures r.Ok? ==> ctx.counter <= r.value.1.counter && ctx.slots.Keys <= r.value.1.slots.Keys
    decreases s
  {
    match s
    case VariableDecl(name, _, value) =>
      var code :- ExprCode(ctx.slots, value);
      Ok((code + [Instr(Store, Num(ctx.slotCount))], DeclareSlot(ctx, name)))
    case WhileLoop(condition, body) => GenWhile(ctx, ends, condition, body)
    case IfStatement(condition, ifBody, elseIfList) => GenIf(ctx, ends, condition, ifBody, elseIfList)
    case ElseStatement(_) => Err(NoVisitMethod)
    case BreakStatement =>
      if ends == [] then Err(BreakOutsideLoop) else Ok(([Instr(Jmp, Label(ends[|ends| - 1]))], ctx))
    case PrintStatement(e) =>
      var code :- ExprCode(ctx.slots, e);
      Ok((code + [Emit(Print)], ctx))
    case AssignmentStmt(name, value) =>
      var code :- ExprCode(ctx.slots, value);
      if name !in ctx.slots then Err(UnknownName(name))
      else Ok((code + [Instr(Store, Num(ctx.slots[name]))], ctx))
  }

  /**
    A while loop: a jump to its start label, the start marker, the condition's
    code, a JZ to its end label, the body (whose breaks jump to the end label),
    a jump back to the start and the end marker. The loop creates two labels.
  */
  function GenWhile(ctx: Ctx, ends: seq<string>, condition: Expr, body: seq<Stmt>): (r: Result<(seq<Entry>, Ctx), GenError>)
    ensures r.Ok? ==> ctx.counter <= r.value.1.counter && ctx.slots.Keys <= r.value.1.slots.Keys
    decreases body, 1
  {
    var start, end := ctx.counter + 1, ctx.counter + 2;
    var conditionCode := ExprCode(ctx.slots, condition);
    if conditionCode.Err? then Err(conditionCode.error)
    else
      var inner := GenStmts(ctx.(counter := end), ends + [LabelName(end)], body);
      if inner.Err? then Err(inner.error)
      else Ok(([JumpTo(Jmp, start), MarkerOf(start)] + conditionCode.value + [JumpTo(Jz, end)] + inner.value.0 +
               [JumpTo(Jmp, start), MarkerOf(end)], inner.value.1))
  }

  /**
    An if statement: its end label is created first, then a label past the
    body; the condition's code and a JZ past the body, the body, a jump to the
    end, the marker past the body, the clauses and the end marker.
  */
  function GenIf(ctx: Ctx, ends: seq<string>, condition: Expr, ifBody: seq<Stmt>, elseIfList: seq<Stmt>)
    : (r: Result<(seq<Entry>, Ctx), GenError>)
    ensures r.Ok? ==> ctx.counter <= r.value.1.counter && ctx.slots.Keys <= r.value.1.slots.Keys
    decreases IfStatement(condition, ifBody, elseIfList), 0
  {
    var end := ctx.counter + 1;
    var next := end + 1;
    var conditionCode := ExprCode(ctx.slots, condition);
    if conditionCode.Err? then Err(conditionCode.error)
    else
      var inner := GenStmts(ctx.(counter := next), ends, ifBody);
      if inner.Err? then Err(inner.error)
      else
        var clauses := GenClauses(inner.value.1, ends, end, elseIfList);
        if clauses.Err? then Err(clauses.error)
        else Ok((conditionCode.value + [JumpTo(Jz, next)] + inner.value.0 + [JumpTo(Jmp, end), MarkerOf(next)] +
                 clauses.value.0 + [MarkerOf(end)], clauses.value.1))
  }

  /** A statement list's fragments, concatenated in order. */
  function GenStmts(ctx: Ctx, ends: seq<string>, ss: seq<Stmt>): (r: Result<(seq<Entry>, Ctx), GenError>)
    ensures r.Ok? ==> ctx.counter <= r.value.1.counter && ctx.slots.Keys <= r.value.1.slots.Keys
    decreases ss, 0
  {
    if ss == [] then Ok(([], ctx))
    else
      var first := GenStmt(ctx, ends, ss[0]);
      if first.Err? then Err(first.error)
      else
        var rest := GenStmts(first.value.1, ends, ss[1..]);
        if rest.Err? then Err(rest.error)
        else Ok((first.value.0 + rest.value.0, rest.value.1))
  }

  /**
    The clauses after an if statement's body. An else-if clause tests its
    condition, jumping past its body to a fresh label when it is false, and
    ends its body with a jump to the shared end label `end`; an else clause's
    body is emitted with no test.
  */
  function GenClauses(ctx: Ctx, ends: seq<string>, end: nat, clauses: seq<Stmt>): (r: Result<(seq<Entry>, Ctx), GenError>)
    ensures r.Ok? ==> ctx.counter <= r.value.1.counter && ctx.slots.Keys <= r.value.1.slots.Keys
    decreases clauses
  {
    if clauses == [] then Ok(([], ctx))
    else
      var first := GenClause(ctx, ends, end, clauses[0]);
      if first.Err? then Err(first.error)
      else
        var rest := GenClauses(first.value.1, ends, end, clauses[1..]);
        if rest.Err? then Err(rest.error)
        else Ok((first.value.0 + rest.value.0, rest.value.1))
  }

  function GenClause(ctx: Ctx, ends: seq<string>, end: nat, clause: Stmt): (r: Result<(seq<Entry>, Ctx), GenError>)
    ensures r.Ok? ==> ctx.counter <= r.value.1.counter && ctx.slots.Keys <= r.value.1.slots.Keys
    decreases clause
  {
    match clause
    case ElseStatement(body) => GenStmts(ctx, ends, body)
    case IfStatement(condition, ifBody, _) => GenElseIf(ctx, ends, end, condition, ifBody)
    case _ => Err(MalformedClause)
  }

  /**
    An else-if clause: the condition's code, a JZ to a fresh label past the
    body, the body, a jump to the shared end label `end` and the fresh marker.
  */
  function GenElseIf(ctx: Ctx, ends: seq<string>, end: nat, condition: Expr, ifBody: seq<Stmt>)
    : (r: Result<(seq<Entry>, Ctx), GenError>)
    ensures r.Ok? ==> ctx.counter <= r.value.1.counter && ctx.slots.Keys <= r.value.1.slots.Keys
    decreases ifBody, 1
  {
    var next := ctx.counter + 1;
    var conditionCode := ExprCode(ctx.slots, condition);
    if conditionCode.Err? then Err(conditionCode.error)
    else
      var inner := GenStmts(ctx.(counter := next), ends, ifBody);
      if inner.Err? then Err(inner.error)
      else Ok((conditionCode.value + [JumpTo(Jz, next)] + inner.value.0 + [JumpTo(Jmp, end), MarkerOf(next)], inner.value.1))
  }

  /** The whole program's code: its statements outside any loop, then HALT. */
  function Generate(p: Program): (r: Result<seq<Entry>, GenError>)
    ensures r.Ok? ==> |r.value| > 0 && r.value[|r.value| - 1] == Emit(Halt)
  {
    var body := GenStmts(Ctx(map[], 0, 0), [], p.statements);
    if body.Err? then Err(body.error) else Ok(body.value.0 + [Emit(Halt)])
  }
}
