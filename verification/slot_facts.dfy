/** The memory slots the generator gives variables. */
module SlotFacts {
  import opened Wrappers
  import opened Ast
  import opened Lowering

  /** The source's slots are numbered from 0 without gaps, and no two names share one. */
  ghost predicate SlotsDistinct(slots: map<string, int>) {
    (forall n :: n in slots ==> 0 <= slots[n] < |slots|) &&
    (forall a, b :: a in slots && b in slots && a != b ==> slots[a] != slots[b])
  }

  /** Every bound slot is one already handed out, below the count, and no two names share one. */
  ghost predicate SlotsValid(ctx: Ctx) {
    (forall n :: n in ctx.slots ==> 0 <= ctx.slots[n] < ctx.slotCount) &&
    (forall a, b :: a in ctx.slots && b in ctx.slots && a != b ==> ctx.slots[a] != ctx.slots[b])
  }

  /**
    From `before` to `after` the count of slots handed out only grows, and every
    name of `before` keeps its slot or is rebound to a slot handed out later.
  */
  ghost predicate SlotsEvolve(before: Ctx, after: Ctx) {
    before.slotCount <= after.slotCount &&
    forall n :: n in before.slots ==>
      n in after.slots && (after.slots[n] == before.slots[n] || before.slotCount <= after.slots[n])
  }

  lemma EvolveTransitive(a: Ctx, b: Ctx, c: Ctx)
    requires SlotsEvolve(a, b) && SlotsEvolve(b, c)
    ensures SlotsEvolve(a, c)
  {
  }

  /**
    A declaration's slot differs from every slot handed out before it, so it
    differs from every slot still bound; the table stays valid and every other
    name keeps its slot.
  */
  lemma DeclareSlotFresh(ctx: Ctx, name: string)
    requires SlotsValid(ctx)
    ensures var r := DeclareSlot(ctx, name);
            && SlotsValid(r) && SlotsEvolve(ctx, r)
            && (forall n :: n in ctx.slots ==> ctx.slots[n] < r.slots[name])
            && r.slots[name] !in ctx.slots.Values
  {
  }

  /**
    The source's assignment gives a redeclared name the table's size as its
    slot without growing the table, so the next new name gets that same slot.
  */
  lemma SlotCollisionAsWritten(slots: map<string, int>, name: string, other: string)
    requires name in slots && other !in slots
    ensures var w := DeclareSlotAsWritten(DeclareSlotAsWritten(slots, name), other);
            w[name] == w[other] == |slots|
  {
    assert DeclareSlotAsWritten(slots, name).Keys == slots.Keys;
  }

  /** A concrete instance: `x` declared twice, then `y`, leaves both in slot 1. */
  lemma SlotCollisionExample()
    ensures var w := DeclareSlotAsWritten(DeclareSlotAsWritten(map["x" := 0], "x"), "y");
            w["x"] == 1 && w["y"] == 1 && !SlotsDistinct(w)
  {
    SlotCollisionAsWritten(map["x" := 0], "x", "y");
  }

  /**
    With fresh slots, the `x`, `x`, `y` declarations that collide in the
    source's table get three different slots.
  */
  lemma SlotCollisionFixed()
    ensures var c0 := Ctx(map["x" := 0], 0, 1);
            var w := DeclareSlot(DeclareSlot(c0, "x"), "y");
            w.slots["x"] == 1 && w.slots["y"] == 2 && SlotsValid(w)
  {
    var c0 := Ctx(map["x" := 0], 0, 1);
    DeclareSlotFresh(c0, "x");
    DeclareSlotFresh(DeclareSlot(c0, "x"), "y");
  }

  /** Code generation keeps the table valid, and every name keeps its slot or gets a fresh one. */
  lemma {:induction false} GenStmtSlots(ctx: Ctx, ends: seq<string>, s: Stmt)
    requires SlotsValid(ctx) && GenStmt(ctx, ends, s).Ok?
    ensures var after := GenStmt(ctx, ends, s).value.1;
            SlotsValid(after) && SlotsEvolve(ctx, after)
    decreases s
  {
    match s
    case VariableDecl(name, _, _) =>
      DeclareSlotFresh(ctx, name);
    case WhileLoop(condition, body) =>
      WhileSlots(ctx, ends, condition, body);
    case IfStatement(condition, ifBody, elseIfList) =>
      IfSlots(ctx, ends, condition, ifBody, elseIfList);
    case BreakStatement =>
    case PrintStatement(_) =>
    case AssignmentStmt(_, _) =>
  }

  lemma {:induction false} WhileSlots(ctx: Ctx, ends: seq<string>, condition: Expr, body: seq<Stmt>)
    requires SlotsValid(ctx) && GenWhile(ctx, ends, condition, body).Ok?
    ensures var after := GenWhile(ctx, ends, condition, body).value.1;
            SlotsValid(after) && SlotsEvolve(ctx, after)
    decreases body, 1
  {
    GenStmtsSlots(ctx.(counter := ctx.counter + 2), ends + [LabelName(ctx.counter + 2)], body);
  }

  lemma {:induction false} IfSlots(ctx: Ctx, ends: seq<string>, condition: Expr, ifBody: seq<Stmt>, elseIfList: seq<Stmt>)
    requires SlotsValid(ctx) && GenIf(ctx, ends, condition, ifBody, elseIfList).Ok?
    ensures var after := GenIf(ctx, ends, condition, ifBody, elseIfList).value.1;
            SlotsValid(after) && SlotsEvolve(ctx, after)
    decreases IfStatement(condition, ifBody, elseIfList), 0
  {
    var inner := ctx.(counter := ctx.counter + 2);
    GenStmtsSlots(inner, ends, ifBody);
    var afterBody := GenStmts(inner, ends, ifBody).value.1;
    GenClausesSlots(afterBody, ends, ctx.counter + 1, elseIfList);
    EvolveTransitive(ctx, afterBody, GenClauses(afterBody, ends, ctx.counter + 1, elseIfList).value.1);
  }

  lemma {:induction false} GenStmtsSlots(ctx: Ctx, ends: seq<string>, ss: seq<Stmt>)
    requires SlotsValid(ctx) && GenStmts(ctx, ends, ss).Ok?
    ensures var after := GenStmts(ctx, ends, ss).value.1;
            SlotsValid(after) && SlotsEvolve(ctx, after)
    decreases ss, 0
  {
    if ss != [] {
      GenStmtSlots(ctx, ends, ss[0]);
      var mid := GenStmt(ctx, ends, ss[0]).value.1;
      GenStmtsSlots(mid, ends, ss[1..]);
      EvolveTransitive(ctx, mid, GenStmts(mid, ends, ss[1..]).value.1);
    }
  }

  lemma {:induction false} GenClausesSlots(ctx: Ctx, ends: seq<string>, end: nat, clauses: seq<Stmt>)
    requires SlotsValid(ctx) && GenClauses(ctx, ends, end, clauses).Ok?
    ensures var after := GenClauses(ctx, ends, end, clauses).value.1;
            SlotsValid(after) && SlotsEvolve(ctx, after)
    decreases clauses
  {
    if clauses != [] {
      GenClauseSlots(ctx, ends, end, clauses[0]);
      var mid := GenClause(ctx, ends, end, clauses[0]).value.1;
      GenClausesSlots(mid, ends, end, clauses[1..]);
      EvolveTransitive(ctx, mid, GenClauses(mid, ends, end, clauses[1..]).value.1);
    }
  }

  lemma {:induction false} GenClauseSlots(ctx: Ctx, ends: seq<string>, end: nat, clause: Stmt)
    requires SlotsValid(ctx) && GenClause(ctx, ends, end, clause).Ok?
    ensures var after := GenClause(ctx, ends, end, clause).value.1;
            SlotsValid(after) && SlotsEvolve(ctx, after)
    decreases clause
  {
    match clause
    case ElseStatement(body) =>
      GenStmtsSlots(ctx, ends, body);
    case IfStatement(condition, ifBody, _) =>
      assert GenClause(ctx, ends, end, clause) == GenElseIf(ctx, ends, end, condition, ifBody);
      GenStmtsSlots(ctx.(counter := ctx.counter + 1), ends, ifBody);
  }

  /** In a generated program no two variables share a memory slot, and every slot bound is one handed out. */
  lemma GenerateSlotsDistinct(p: Program)
    requires GenStmts(Ctx(map[], 0, 0), [], p.statements).Ok?
    ensures SlotsValid(GenStmts(Ctx(map[], 0, 0), [], p.statements).value.1)
  {
    GenStmtsSlots(Ctx(map[], 0, 0), [], p.statements);
  }
}
