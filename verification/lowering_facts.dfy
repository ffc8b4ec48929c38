/**
  What code generation guarantees: label names round-trip to the counter
  value they were made from, every label a generated program jumps to has
  exactly one marker, the program ends in HALT, and the corrected slot
  assignment keeps distinct names in distinct cells.
*/
module LoweringFacts {
  import opened Wrappers
  import opened Numerals
  import opened Ast
  import opened Machine
  import opened Lowering

  // ---------------------------------------------------------------- labels

  /** Reading back a label's name gives the counter value it was made from. */
  lemma LabelRoundTrip(k: nat)
    ensures LabelNumber(LabelName(k)) == Some(k)
  {
    var name := LabelName(k);
    assert name[1..] == Digits(k);
    DecimalValueOfDigits(k);
  }

  /** Labels made from distinct counter values are distinct. */
  lemma LabelNamesDistinct(a: nat, b: nat)
    requires a != b
    ensures LabelName(a) != LabelName(b)
  {
    LabelRoundTrip(a);
    LabelRoundTrip(b);
  }

  /** The counter value a jump operand names, when it names a generated label. */
  function LabelOf(t: Operand): (r: Option<nat>)
    ensures r.Some? ==> t == Label(LabelName(r.value))
  {
    if t.Label? && LabelNumber(t.name).Some? && t.name == LabelName(LabelNumber(t.name).value)
    then LabelNumber(t.name) else None
  }

  lemma LabelOfLabel(k: nat)
    ensures LabelOf(Label(LabelName(k))) == Some(k)
  {
    LabelRoundTrip(k);
  }

  /** The marker of label `k` is the marker of exactly the operand naming label `k`. */
  lemma MarkerOfMatches(k: nat, t: Operand)
    ensures IsMarkerFor(MarkerOf(k), t) <==> LabelOf(t) == Some(k)
  {
    var text := LabelName(k) + ":";
    assert text[..|text| - 1] == LabelName(k);
    LabelOfLabel(k);
  }

  /** How many markers of label `t` a fragment holds. */
  function Count(f: seq<Entry>, t: Operand): nat {
    if f == [] then 0 else (if IsMarkerFor(f[0], t) then 1 else 0) + Count(f[1..], t)
  }

  lemma {:induction false} CountConcat(f1: seq<Entry>, f2: seq<Entry>, t: Operand)
    ensures Count(f1 + f2, t) == Count(f1, t) + Count(f2, t)
  {
    if f1 == [] {
      assert f1 + f2 == f2;
    } else {
      assert (f1 + f2)[1..] == f1[1..] + f2;
      CountConcat(f1[1..], f2, t);
    }
  }

  /** A label that has a marker in the program is found, at a marker of it. */
  lemma {:induction false} CountedIsFound(f: seq<Entry>, t: Operand, from: nat)
    requires from <= |f| && Count(f[from..], t) > 0
    ensures FindFrom(f, t, from).Ok?
    decreases |f| - from
  {
    if from < |f| && !IsMarkerFor(f[from], t) {
      assert f[from..][1..] == f[from + 1..];
      CountedIsFound(f, t, from + 1);
    }
  }

  /** The label numbers `lo + 1` to `hi`. */
  function Range(lo: nat, hi: nat): (r: set<nat>)
    ensures forall k :: k in r <==> lo < k <= hi
    decreases hi
  {
    if hi <= lo then {} else Range(lo, hi - 1) + {hi}
  }

  /** The fragment holds one marker for each label numbered in `labels`, and no other marker of a label. */
  ghost predicate Marked(f: seq<Entry>, labels: set<nat>) {
    forall t :: Count(f, t) == if LabelOf(t).Some? && LabelOf(t).value in labels then 1 else 0
  }

  predicate IsJump(e: Entry) {
    e.Instr? && (e.opcode == Jmp || e.opcode == Jz)
  }

  /** A jump may target a label numbered in `labels` or one of the enclosing loops' end labels. */
  predicate Targets(t: Operand, labels: set<nat>, ends: seq<string>) {
    (LabelOf(t).Some? && LabelOf(t).value in labels) || (t.Label? && t.name in ends)
  }

  predicate JumpsWithin(f: seq<Entry>, labels: set<nat>, ends: seq<string>) {
    forall i :: 0 <= i < |f| && IsJump(f[i]) ==> Targets(f[i].operand, labels, ends)
  }

  /** Neither markers nor jumps. */
  predicate Straight(f: seq<Entry>) {
    forall i :: 0 <= i < |f| ==> !f[i].Marker? && !IsJump(f[i])
  }

  lemma {:induction false} StraightUnmarked(f: seq<Entry>)
    requires Straight(f)
    ensures Marked(f, {})
  {
    forall t ensures Count(f, t) == 0 {
      StraightCount(f, t);
    }
  }

  lemma {:induction false} StraightCount(f: seq<Entry>, t: Operand)
    requires Straight(f)
    ensures Count(f, t) == 0
  {
    if f != [] {
      assert Straight(f[1..]) by {
        forall i | 0 <= i < |f[1..]| ensures !f[1..][i].Marker? && !IsJump(f[1..][i]) {
          assert f[1..][i] == f[i + 1];
        }
      }
      StraightCount(f[1..], t);
    }
  }

  lemma MarkedConcat(f1: seq<Entry>, l1: set<nat>, f2: seq<Entry>, l2: set<nat>)
    requires Marked(f1, l1) && Marked(f2, l2) && l1 !! l2
    ensures Marked(f1 + f2, l1 + l2)
  {
    forall t ensures Count(f1 + f2, t) == if LabelOf(t).Some? && LabelOf(t).value in l1 + l2 then 1 else 0 {
      CountConcat(f1, f2, t);
    }
  }

  lemma JumpsConcat(f1: seq<Entry>, f2: seq<Entry>, labels: set<nat>, ends: seq<string>)
    requires JumpsWithin(f1, labels, ends) && JumpsWithin(f2, labels, ends)
    ensures JumpsWithin(f1 + f2, labels, ends)
  {
    forall i | 0 <= i < |f1 + f2| && IsJump((f1 + f2)[i]) ensures Targets((f1 + f2)[i].operand, labels, ends) {
      if i >= |f1| {
        assert (f1 + f2)[i] == f2[i - |f1|];
      }
    }
  }

  /** Widening the allowed labels, or replacing an end label by its number among them, keeps jumps within. */
  lemma JumpsWiden(f: seq<Entry>, labels: set<nat>, ends: seq<string>, wider: set<nat>, end: nat)
    requires JumpsWithin(f, labels, ends + [LabelName(end)]) && labels <= wider && end in wider
    ensures JumpsWithin(f, wider, ends)
  {
    LabelOfLabel(end);
  }

  lemma JumpsWidenOnly(f: seq<Entry>, labels: set<nat>, ends: seq<string>, wider: set<nat>)
    requires JumpsWithin(f, labels, ends) && labels <= wider
    ensures JumpsWithin(f, wider, ends)
  {
  }

  /** A jump to label `k` next to the marker of label `m`. */
  lemma JumpMarker(op: Opcode, k: nat, m: nat, labels: set<nat>, ends: seq<string>)
    requires op == Jmp || op == Jz
    requires k in labels
    ensures Marked([JumpTo(op, k), MarkerOf(m)], {m})
    ensures JumpsWithin([JumpTo(op, k), MarkerOf(m)], labels, ends)
  {
    LabelOfLabel(k);
    forall t ensures Count([JumpTo(op, k), MarkerOf(m)], t) == if LabelOf(t).Some? && LabelOf(t).value in {m} then 1 else 0 {
      MarkerOfMatches(m, t);
      assert [JumpTo(op, k), MarkerOf(m)][1..] == [MarkerOf(m)];
      assert [MarkerOf(m)][1..] == [];
      assert Count([MarkerOf(m)], t) == if IsMarkerFor(MarkerOf(m), t) then 1 else 0;
    }
  }

  /** Expression code followed by a jump to label `k`. */
  lemma TestJump(code: seq<Entry>, k: nat, labels: set<nat>, ends: seq<string>)
    requires Straight(code) && k in labels
    ensures Marked(code + [JumpTo(Jz, k)], {})
    ensures JumpsWithin(code + [JumpTo(Jz, k)], labels, ends)
  {
    LabelOfLabel(k);
    var f := code + [JumpTo(Jz, k)];
    StraightUnmarked(code);
    assert Marked([JumpTo(Jz, k)], {}) by {
      forall t ensures Count([JumpTo(Jz, k)], t) == 0 {
        assert [JumpTo(Jz, k)][1..] == [];
      }
    }
    MarkedConcat(code, {}, [JumpTo(Jz, k)], {});
  }

  lemma MarkerAlone(k: nat)
    ensures Marked([MarkerOf(k)], {k}) && forall labels, ends :: JumpsWithin([MarkerOf(k)], labels, ends)
  {
    forall t ensures Count([MarkerOf(k)], t) == if LabelOf(t).Some? && LabelOf(t).value in {k} then 1 else 0 {
      MarkerOfMatches(k, t);
    }
  }

  lemma StraightConcat(f1: seq<Entry>, f2: seq<Entry>)
    requires Straight(f1) && Straight(f2)
    ensures Straight(f1 + f2)
  {
    forall i | 0 <= i < |f1 + f2| ensures !(f1 + f2)[i].Marker? && !IsJump((f1 + f2)[i]) {
      if i >= |f1| {
        assert (f1 + f2)[i] == f2[i - |f1|];
      }
    }
  }

  /** Operator code is neither a marker nor a jump. */
  lemma OperatorsStraight(op: BinOp, uop: UnOp)
    ensures Straight(OperatorCode(op)) && Straight(UnaryCode(uop))
  {
  }

  lemma {:induction false} ExprCodeStraight(slots: map<string, int>, e: Expr)
    requires ExprCode(slots, e).Ok?
    ensures Straight(ExprCode(slots, e).value)
  {
    match e
    case Literal(_) =>
    case Identifier(_) =>
    case UnaryOp(uop, operand) =>
      ExprCodeStraight(slots, operand);
      var code := ExprCode(slots, operand).value;
      assert ExprCode(slots, e).value == code + UnaryCode(uop);
      OperatorsStraight(AddOp, uop);
      StraightConcat(code, UnaryCode(uop));
    case BinaryOp(left, op, right) =>
      ExprCodeStraight(slots, left);
      ExprCodeStraight(slots, right);
      var leftCode, rightCode := ExprCode(slots, left).value, ExprCode(slots, right).value;
      assert ExprCode(slots, e).value == leftCode + rightCode + OperatorCode(op);
      OperatorsStraight(op, NegOp);
      StraightConcat(leftCode, rightCode);
      StraightConcat(leftCode + rightCode, OperatorCode(op));
  }

  /** Straight code, then a final instruction that is neither a marker nor a jump. */
  lemma StraightThen(code: seq<Entry>, last: Entry, labels: set<nat>, ends: seq<string>)
    requires Straight(code) && !last.Marker? && !IsJump(last)
    ensures Marked(code + [last], {}) && JumpsWithin(code + [last], labels, ends)
  {
    var f := code + [last];
    assert Straight(f) by {
      forall i | 0 <= i < |f| ensures !f[i].Marker? && !IsJump(f[i]) {
        if i < |code| {
          assert f[i] == code[i];
        }
      }
    }
    StraightUnmarked(f);
  }

  /**
    A fragment emitted while the label counter went from `lo` to `hi`: each
    label created in between has exactly one marker in it, no other label
    does, and every jump in it goes to one of those labels or to an enclosing
    loop's end label.
  */
  ghost predicate WellLabelled(f: seq<Entry>, lo: nat, hi: nat, ends: seq<string>) {
    Marked(f, Range(lo, hi)) && JumpsWithin(f, Range(lo, hi), ends)
  }

  lemma Join(f1: seq<Entry>, l1: set<nat>, f2: seq<Entry>, l2: set<nat>, labels: set<nat>, ends: seq<string>)
    requires Marked(f1, l1) && Marked(f2, l2) && l1 !! l2
    requires JumpsWithin(f1, labels, ends) && JumpsWithin(f2, labels, ends)
    ensures Marked(f1 + f2, l1 + l2) && JumpsWithin(f1 + f2, labels, ends)
  {
    MarkedConcat(f1, l1, f2, l2);
    JumpsConcat(f1, f2, labels, ends);
  }

  /** A while loop's head: the jump to its test, the start marker, the test and the exit jump. */
  lemma WhileHead(c: nat, conditionCode: seq<Entry>, all: set<nat>, ends: seq<string>)
    requires Straight(conditionCode) && c + 1 in all && c + 2 in all
    ensures var head := [JumpTo(Jmp, c + 1), MarkerOf(c + 1)] + conditionCode + [JumpTo(Jz, c + 2)];
            Marked(head, {c + 1}) && JumpsWithin(head, all, ends)
  {
    var p1 := [JumpTo(Jmp, c + 1), MarkerOf(c + 1)];
    var p2 := conditionCode + [JumpTo(Jz, c + 2)];
    JumpMarker(Jmp, c + 1, c + 1, all, ends);
    TestJump(conditionCode, c + 2, all, ends);
    Join(p1, {c + 1}, p2, {}, all, ends);
    assert {c + 1} + {} == {c + 1};
    assert p1 + conditionCode + [JumpTo(Jz, c + 2)] == p1 + p2;
  }

  /** A while loop's head followed by its body: the start marker and the body's labels are marked. */
  lemma WhileBody(c: nat, a: nat, conditionCode: seq<Entry>, bodyCode: seq<Entry>, ends: seq<string>)
    requires Straight(conditionCode) && c + 2 <= a
    requires WellLabelled(bodyCode, c + 2, a, ends + [LabelName(c + 2)])
    ensures var f := [JumpTo(Jmp, c + 1), MarkerOf(c + 1)] + conditionCode + [JumpTo(Jz, c + 2)] + bodyCode;
            Marked(f, {c + 1} + Range(c + 2, a)) && JumpsWithin(f, Range(c, a), ends)
  {
    var all := Range(c, a);
    var head := [JumpTo(Jmp, c + 1), MarkerOf(c + 1)] + conditionCode + [JumpTo(Jz, c + 2)];
    WhileHead(c, conditionCode, all, ends);
    JumpsWiden(bodyCode, Range(c + 2, a), ends, all, c + 2);
    Join(head, {c + 1}, bodyCode, Range(c + 2, a), all, ends);
  }

  /** A while loop's fragment, given its condition's code and its body's well-labelled fragment. */
  lemma WhileLabelled(c: nat, a: nat, conditionCode: seq<Entry>, bodyCode: seq<Entry>, ends: seq<string>)
    requires Straight(conditionCode) && c + 2 <= a
    requires WellLabelled(bodyCode, c + 2, a, ends + [LabelName(c + 2)])
    ensures WellLabelled([JumpTo(Jmp, c + 1), MarkerOf(c + 1)] + conditionCode + [JumpTo(Jz, c + 2)] + bodyCode +
                         [JumpTo(Jmp, c + 1), MarkerOf(c + 2)], c, a, ends)
  {
    var all := Range(c, a);
    var f := [JumpTo(Jmp, c + 1), MarkerOf(c + 1)] + conditionCode + [JumpTo(Jz, c + 2)] + bodyCode;
    WhileBody(c, a, conditionCode, bodyCode, ends);
    JumpMarker(Jmp, c + 1, c + 2, all, ends);
    Join(f, {c + 1} + Range(c + 2, a), [JumpTo(Jmp, c + 1), MarkerOf(c + 2)], {c + 2}, all, ends);
    RangeAround(c, a);
  }

  /** The labels of a while loop: its start, its body's labels and its end. */
  lemma RangeAround(c: nat, a: nat)
    requires c + 2 <= a
    ensures {c + 1} + Range(c + 2, a) + {c + 2} == Range(c, a)
  {
  }

  /** An else-if clause's fragment; its closing jump goes to the shared end label `end`. */
  lemma ClauseLabelled(c: nat, a: nat, end: nat, conditionCode: seq<Entry>, bodyCode: seq<Entry>, ends: seq<string>)
    requires Straight(conditionCode) && c + 1 <= a
    requires WellLabelled(bodyCode, c + 1, a, ends)
    ensures WellLabelled(conditionCode + [JumpTo(Jz, c + 1)] + bodyCode + [JumpTo(Jmp, end), MarkerOf(c + 1)],
                         c, a, ends + [LabelName(end)])
  {
    var all := Range(c, a);
    var ends' := ends + [LabelName(end)];
    var p1 := conditionCode + [JumpTo(Jz, c + 1)];
    var p3 := [JumpTo(Jmp, end), MarkerOf(c + 1)];
    TestJump(conditionCode, c + 1, all, ends');
    JumpsMoreEnds(bodyCode, Range(c + 1, a), ends, LabelName(end));
    JumpsWidenOnly(bodyCode, Range(c + 1, a), ends', all);
    ExitMarker(end, c + 1, all, ends);
    Join(p1, {}, bodyCode, Range(c + 1, a), all, ends');
    Join(p1 + bodyCode, {} + Range(c + 1, a), p3, {c + 1}, all, ends');
    assert {} + Range(c + 1, a) + {c + 1} == all;
  }

  /** A clause's jump to the shared end label `end`, next to the marker of label `m`. */
  lemma ExitMarker(end: nat, m: nat, labels: set<nat>, ends: seq<string>)
    ensures Marked([JumpTo(Jmp, end), MarkerOf(m)], {m})
    ensures JumpsWithin([JumpTo(Jmp, end), MarkerOf(m)], labels, ends + [LabelName(end)])
  {
    var f := [JumpTo(Jmp, end), MarkerOf(m)];
    LabelOfLabel(end);
    MarkerAlone(m);
    forall i | 0 <= i < |f| && IsJump(f[i]) ensures Targets(f[i].operand, labels, ends + [LabelName(end)]) {
      assert i == 0 && f[i].operand == Label(LabelName(end));
    }
    forall t ensures Count(f, t) == if LabelOf(t).Some? && LabelOf(t).value in {m} then 1 else 0 {
      MarkerOfMatches(m, t);
      assert f[1..] == [MarkerOf(m)];
      assert [MarkerOf(m)][1..] == [];
      assert Count([MarkerOf(m)], t) == if IsMarkerFor(MarkerOf(m), t) then 1 else 0;
    }
  }

  /** An if statement's test, body, jump to the end and else marker. */
  lemma IfHead(c: nat, b: nat, conditionCode: seq<Entry>, bodyCode: seq<Entry>, all: set<nat>, ends: seq<string>)
    requires Straight(conditionCode) && c + 2 <= b && Range(c, b) <= all
    requires WellLabelled(bodyCode, c + 2, b, ends)
    ensures var head := conditionCode + [JumpTo(Jz, c + 2)] + bodyCode + [JumpTo(Jmp, c + 1), MarkerOf(c + 2)];
            Marked(head, Range(c + 1, b)) && JumpsWithin(head, all, ends)
  {
    var p1 := conditionCode + [JumpTo(Jz, c + 2)];
    var p3 := [JumpTo(Jmp, c + 1), MarkerOf(c + 2)];
    TestJump(conditionCode, c + 2, all, ends);
    JumpsWidenOnly(bodyCode, Range(c + 2, b), ends, all);
    JumpMarker(Jmp, c + 1, c + 2, all, ends);
    Join(p1, {}, bodyCode, Range(c + 2, b), all, ends);
    Join(p1 + bodyCode, {} + Range(c + 2, b), p3, {c + 2}, all, ends);
    assert {} + Range(c + 2, b) + {c + 2} == Range(c + 1, b);
  }

  /** An if statement's fragment, from its condition's code, its body's fragment and its clauses' fragment. */
  lemma IfLabelled(c: nat, b: nat, a: nat, conditionCode: seq<Entry>, bodyCode: seq<Entry>,
                   clauseCode: seq<Entry>, ends: seq<string>)
    requires Straight(conditionCode) && c + 2 <= b <= a
    requires WellLabelled(bodyCode, c + 2, b, ends)
    requires WellLabelled(clauseCode, b, a, ends + [LabelName(c + 1)])
    ensures WellLabelled(conditionCode + [JumpTo(Jz, c + 2)] + bodyCode + [JumpTo(Jmp, c + 1), MarkerOf(c + 2)] +
                         clauseCode + [MarkerOf(c + 1)], c, a, ends)
  {
    var all := Range(c, a);
    var head := conditionCode + [JumpTo(Jz, c + 2)] + bodyCode + [JumpTo(Jmp, c + 1), MarkerOf(c + 2)];
    IfHead(c, b, conditionCode, bodyCode, all, ends);
    JumpsWiden(clauseCode, Range(b, a), ends, all, c + 1);
    MarkerAlone(c + 1);
    Join(head, Range(c + 1, b), clauseCode, Range(b, a), all, ends);
    Join(head + clauseCode, Range(c + 1, b) + Range(b, a), [MarkerOf(c + 1)], {c + 1}, all, ends);
    assert Range(c + 1, b) + Range(b, a) + {c + 1} == all;
  }

  /** Every statement's fragment is well labelled for the counter values it used. */
  lemma {:induction false} GenStmtLabelled(ctx: Ctx, ends: seq<string>, s: Stmt)
    requires GenStmt(ctx, ends, s).Ok?
    ensures WellLabelled(GenStmt(ctx, ends, s).value.0, ctx.counter, GenStmt(ctx, ends, s).value.1.counter, ends)
    decreases s
  {
    match s
    case WhileLoop(condition, body) => WhileCase(ctx, ends, condition, body);
    case IfStatement(condition, ifBody, elseIfList) => IfCase(ctx, ends, condition, ifBody, elseIfList);
    case VariableDecl(_, _, _) => SimpleCase(ctx, ends, s);
    case BreakStatement => SimpleCase(ctx, ends, s);
    case PrintStatement(_) => SimpleCase(ctx, ends, s);
    case AssignmentStmt(_, _) => SimpleCase(ctx, ends, s);
  }

  lemma {:induction false} WhileCase(ctx: Ctx, ends: seq<string>, condition: Expr, body: seq<Stmt>)
    requires GenWhile(ctx, ends, condition, body).Ok?
    ensures var r := GenWhile(ctx, ends, condition, body).value;
            WellLabelled(r.0, ctx.counter, r.1.counter, ends)
    decreases body, 1
  {
    var c := ctx.counter;
    var code, inner := GenWhileParts(ctx, ends, condition, body);
    GenStmtsLabelled(ctx.(counter := c + 2), ends + [LabelName(c + 2)], body);
    ExprCodeStraight(ctx.slots, condition);
    WhileLabelled(c, inner.1.counter, code, inner.0, ends);
  }

  /** A successful while loop's fragment is assembled from its condition's code and its body's fragment. */
  lemma GenWhileParts(ctx: Ctx, ends: seq<string>, condition: Expr, body: seq<Stmt>)
    returns (code: seq<Entry>, inner: (seq<Entry>, Ctx))
    requires GenWhile(ctx, ends, condition, body).Ok?
    ensures ExprCode(ctx.slots, condition) == Ok(code)
    ensures GenStmts(ctx.(counter := ctx.counter + 2), ends + [LabelName(ctx.counter + 2)], body) == Ok(inner)
    ensures GenWhile(ctx, ends, condition, body) ==
            Ok(([JumpTo(Jmp, ctx.counter + 1), MarkerOf(ctx.counter + 1)] + code + [JumpTo(Jz, ctx.counter + 2)] + inner.0 +
                [JumpTo(Jmp, ctx.counter + 1), MarkerOf(ctx.counter + 2)], inner.1))
  {
    code := ExprCode(ctx.slots, condition).value;
    inner := GenStmts(ctx.(counter := ctx.counter + 2), ends + [LabelName(ctx.counter + 2)], body).value;
  }

  lemma {:induction false} IfCase(ctx: Ctx, ends: seq<string>, condition: Expr, ifBody: seq<Stmt>, elseIfList: seq<Stmt>)
    requires GenIf(ctx, ends, condition, ifBody, elseIfList).Ok?
    ensures var r := GenIf(ctx, ends, condition, ifBody, elseIfList).value;
            WellLabelled(r.0, ctx.counter, r.1.counter, ends)
    decreases IfStatement(condition, ifBody, elseIfList), 0
  {
    var c := ctx.counter;
    var code, body, clauses := GenIfParts(ctx, ends, condition, ifBody, elseIfList);
    GenStmtsLabelled(ctx.(counter := c + 2), ends, ifBody);
    GenClausesLabelled(body.1, ends, c + 1, elseIfList);
    ExprCodeStraight(ctx.slots, condition);
    IfLabelled(c, body.1.counter, clauses.1.counter, code, body.0, clauses.0, ends);
  }

  /** A successful if statement's fragment is assembled from its condition's code, its body's and its clauses' fragments. */
  lemma GenIfParts(ctx: Ctx, ends: seq<string>, condition: Expr, ifBody: seq<Stmt>, elseIfList: seq<Stmt>)
    returns (code: seq<Entry>, body: (seq<Entry>, Ctx), clauses: (seq<Entry>, Ctx))
    requires GenIf(ctx, ends, condition, ifBody, elseIfList).Ok?
    ensures ExprCode(ctx.slots, condition) == Ok(code)
    ensures GenStmts(ctx.(counter := ctx.counter + 2), ends, ifBody) == Ok(body)
    ensures GenClauses(body.1, ends, ctx.counter + 1, elseIfList) == Ok(clauses)
    ensures GenIf(ctx, ends, condition, ifBody, elseIfList) ==
            Ok((code + [JumpTo(Jz, ctx.counter + 2)] + body.0 + [JumpTo(Jmp, ctx.counter + 1), MarkerOf(ctx.counter + 2)] +
                clauses.0 + [MarkerOf(ctx.counter + 1)], clauses.1))
  {
    code := ExprCode(ctx.slots, condition).value;
    body := GenStmts(ctx.(counter := ctx.counter + 2), ends, ifBody).value;
    clauses := GenClauses(body.1, ends, ctx.counter + 1, elseIfList).value;
  }

  /** Statements with no nested block emit no marker and create no label. */
  lemma SimpleCase(ctx: Ctx, ends: seq<string>, s: Stmt)
    requires !s.WhileLoop? && !s.IfStatement? && GenStmt(ctx, ends, s).Ok?
    ensures var r := GenStmt(ctx, ends, s).value;
            WellLabelled(r.0, ctx.counter, r.1.counter, ends)
  {
    var c := ctx.counter;
    match s
    case VariableDecl(name, _, value) =>
      ExprCodeStraight(ctx.slots, value);
      StraightThen(ExprCode(ctx.slots, value).value, Instr(Store, Num(ctx.slotCount)), Range(c, c), ends);
    case BreakStatement =>
      var f := [Instr(Jmp, Label(ends[|ends| - 1]))];
      assert Marked(f, {}) by {
        forall t ensures Count(f, t) == 0 {
          assert f[1..] == [];
        }
      }
    case PrintStatement(e) =>
      ExprCodeStraight(ctx.slots, e);
      StraightThen(ExprCode(ctx.slots, e).value, Emit(Print), Range(c, c), ends);
    case AssignmentStmt(name, value) =>
      ExprCodeStraight(ctx.slots, value);
      StraightThen(ExprCode(ctx.slots, value).value, Instr(Store, Num(ctx.slots[name])), Range(c, c), ends);
  }

  lemma {:induction false} GenStmtsLabelled(ctx: Ctx, ends: seq<string>, ss: seq<Stmt>)
    requires GenStmts(ctx, ends, ss).Ok?
    ensures WellLabelled(GenStmts(ctx, ends, ss).value.0, ctx.counter, GenStmts(ctx, ends, ss).value.1.counter, ends)
    decreases ss, 0
  {
    if ss == [] {
      assert Marked([], {}) by {
        forall t ensures Count([], t) == 0 {
        }
      }
      assert Range(ctx.counter, ctx.counter) == {};
    } else {
      GenStmtLabelled(ctx, ends, ss[0]);
      var first := GenStmt(ctx, ends, ss[0]).value;
      GenStmtsLabelled(first.1, ends, ss[1..]);
      var rest := GenStmts(first.1, ends, ss[1..]).value;
      Split(first.0, rest.0, ctx.counter, first.1.counter, rest.1.counter, ends);
    }
  }

  lemma {:induction false} GenClausesLabelled(ctx: Ctx, ends: seq<string>, end: nat, clauses: seq<Stmt>)
    requires GenClauses(ctx, ends, end, clauses).Ok?
    ensures WellLabelled(GenClauses(ctx, ends, end, clauses).value.0, ctx.counter,
                         GenClauses(ctx, ends, end, clauses).value.1.counter, ends + [LabelName(end)])
    decreases clauses
  {
    if clauses == [] {
      assert Marked([], {}) by {
        forall t ensures Count([], t) == 0 {
        }
      }
      assert Range(ctx.counter, ctx.counter) == {};
    } else {
      GenClauseLabelled(ctx, ends, end, clauses[0]);
      var first := GenClause(ctx, ends, end, clauses[0]).value;
      GenClausesLabelled(first.1, ends, end, clauses[1..]);
      var rest := GenClauses(first.1, ends, end, clauses[1..]).value;
      Split(first.0, rest.0, ctx.counter, first.1.counter, rest.1.counter, ends + [LabelName(end)]);
    }
  }

  lemma {:induction false} GenClauseLabelled(ctx: Ctx, ends: seq<string>, end: nat, clause: Stmt)
    requires GenClause(ctx, ends, end, clause).Ok?
    ensures WellLabelled(GenClause(ctx, ends, end, clause).value.0, ctx.counter,
                         GenClause(ctx, ends, end, clause).value.1.counter, ends + [LabelName(end)])
    decreases clause
  {
    match clause
    case ElseStatement(body) =>
      GenStmtsLabelled(ctx, ends, body);
      var inner := GenStmts(ctx, ends, body).value;
      JumpsMoreEnds(inner.0, Range(ctx.counter, inner.1.counter), ends, LabelName(end));
    case IfStatement(condition, ifBody, _) => ElseIfCase(ctx, ends, end, condition, ifBody);
  }

  lemma JumpsMoreEnds(f: seq<Entry>, labels: set<nat>, ends: seq<string>, extra: string)
    requires JumpsWithin(f, labels, ends)
    ensures JumpsWithin(f, labels, ends + [extra])
  {
    forall i | 0 <= i < |f| && IsJump(f[i]) ensures Targets(f[i].operand, labels, ends + [extra]) {
      assert Targets(f[i].operand, labels, ends);
    }
  }

  lemma {:induction false} ElseIfCase(ctx: Ctx, ends: seq<string>, end: nat, condition: Expr, ifBody: seq<Stmt>)
    requires GenElseIf(ctx, ends, end, condition, ifBody).Ok?
    ensures var r := GenElseIf(ctx, ends, end, condition, ifBody).value;
            WellLabelled(r.0, ctx.counter, r.1.counter, ends + [LabelName(end)])
    decreases ifBody, 1
  {
    var c := ctx.counter;
    var code, inner := GenElseIfParts(ctx, ends, end, condition, ifBody);
    GenStmtsLabelled(ctx.(counter := c + 1), ends, ifBody);
    ExprCodeStraight(ctx.slots, condition);
    ClauseLabelled(c, inner.1.counter, end, code, inner.0, ends);
  }

  /** A successful else-if clause's fragment is assembled from its condition's code and its body's fragment. */
  lemma GenElseIfParts(ctx: Ctx, ends: seq<string>, end: nat, condition: Expr, ifBody: seq<Stmt>)
    returns (code: seq<Entry>, inner: (seq<Entry>, Ctx))
    requires GenElseIf(ctx, ends, end, condition, ifBody).Ok?
    ensures ExprCode(ctx.slots, condition) == Ok(code)
    ensures GenStmts(ctx.(counter := ctx.counter + 1), ends, ifBody) == Ok(inner)
    ensures GenElseIf(ctx, ends, end, condition, ifBody) ==
            Ok((code + [JumpTo(Jz, ctx.counter + 1)] + inner.0 + [JumpTo(Jmp, end), MarkerOf(ctx.counter + 1)], inner.1))
  {
    code := ExprCode(ctx.slots, condition).value;
    inner := GenStmts(ctx.(counter := ctx.counter + 1), ends, ifBody).value;
  }

  /** Two consecutive fragments with consecutive counter ranges. */
  lemma Split(f1: seq<Entry>, f2: seq<Entry>, lo: nat, mid: nat, hi: nat, ends: seq<string>)
    requires lo <= mid <= hi && WellLabelled(f1, lo, mid, ends) && WellLabelled(f2, mid, hi, ends)
    ensures WellLabelled(f1 + f2, lo, hi, ends)
  {
    JumpsWidenOnly(f1, Range(lo, mid), ends, Range(lo, hi));
    JumpsWidenOnly(f2, Range(mid, hi), ends, Range(lo, hi));
    Join(f1, Range(lo, mid), f2, Range(mid, hi), Range(lo, hi), ends);
    assert Range(lo, mid) + Range(mid, hi) == Range(lo, hi);
  }

  /**
    In a generated program no label is placed twice, and every JMP and JZ
    names a label that is placed exactly once, so the machine's label search
    always succeeds on it.
  */
  lemma GenerateLabelsResolve(p: Program)
    requires Generate(p).Ok?
    ensures var f := Generate(p).value;
            (forall t :: Count(f, t) <= 1) &&
            forall i :: 0 <= i < |f| && IsJump(f[i]) ==> Count(f, f[i].operand) == 1 && FindLabel(f, f[i].operand).Ok?
  {
    var body := GenStmts(Ctx(map[], 0, 0), [], p.statements).value;
    var code, after := body.0, body.1;
    var labels := Range(0, after.counter);
    var f := code + [Emit(Halt)];
    assert f == Generate(p).value;
    GenStmtsLabelled(Ctx(map[], 0, 0), [], p.statements);
    StraightThen([], Emit(Halt), labels, []);
    assert [] + [Emit(Halt)] == [Emit(Halt)];
    Join(code, labels, [Emit(Halt)], {}, labels, []);
    assert labels + {} == labels;
    forall i | 0 <= i < |f| && IsJump(f[i])
      ensures Count(f, f[i].operand) == 1 && FindLabel(f, f[i].operand).Ok?
    {
      assert Targets(f[i].operand, labels, []);
      assert f[0..] == f;
      CountedIsFound(f, f[i].operand, 0);
    }
  }
}
