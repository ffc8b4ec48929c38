/**
  What an expression means at run time, defined directly on its syntax, and
  the proof that the code the generator emits for it computes that meaning on
  the stack machine: it pushes exactly the expression's value and touches
  nothing else, or fails with the same error.
*/
module ExprSemantics {
  import opened Wrappers
  import opened Ast
  import opened Machine
  import opened Lowering

  /** Runs a list of entries one after another, ignoring the counter. */
  function ExecAll(prog: seq<Entry>, s: State, code: seq<Entry>): (r: Result<State, VmError>)
    requires Valid(s)
    ensures r.Ok? ==> Valid(r.value)
    decreases code
  {
    if code == [] then Ok(s)
    else
      var next :- Execute(prog, s, code[0]);
      ExecAll(prog, next, code[1..])
  }

  /** The value of a binary operator on integers (booleans being 0 and 1). */
  function BinaryValue(op: BinOp, a: int, b: int): Result<int, VmError> {
    match op
    case AddOp => Ok(a + b)
    case SubOp => Ok(a - b)
    case MulOp => Ok(a * b)
    case DivOp => if b == 0 then Err(DivisionByZero) else Ok(FloorDiv(a, b))
    case LessOp => Ok(if a < b then 1 else 0)
    case GreaterOp => Ok(if a > b then 1 else 0)
    case LessEqualOp => Ok(if a <= b then 1 else 0)
    case GreaterEqualOp => Ok(if a >= b then 1 else 0)
    case EqualOp => Ok(if a == b then 1 else 0)
    case NotEqualOp => Ok(if a != b then 1 else 0)
    case AndOp => Ok(if a == 0 then 0 else b)
    case OrOp => Ok(if a != 0 then a else b)
  }

  function UnaryValue(uop: UnOp, x: int): int {
    match uop
    case NegOp => -x
    case NotOp => if x == 0 then 1 else 0
  }

  /**
    An expression's value, with variables read from `memory` at the slots
    `slots` gives them. Operands are evaluated left first, so the first
    failure met in that order is the one reported.
  */
  function Eval(slots: map<string, int>, memory: seq<int>, e: Expr): Result<int, VmError>
    requires Names(e) <= slots.Keys && |memory| == MemorySize
  {
    match e
    case Literal(lit) =>
      (match lit
       case IntLit(i) => Ok(i)
       case BoolLit(b) => Ok(if b then 1 else 0)
       case FloatLit(_) => Err(FloatNotModelled))
    case Identifier(name) =>
      var cell :- Cell(slots[name]);
      Ok(memory[cell])
    case UnaryOp(uop, operand) =>
      var x :- Eval(slots, memory, operand);
      Ok(UnaryValue(uop, x))
    case BinaryOp(left, op, right) =>
      var a :- Eval(slots, memory, left);
      var b :- Eval(slots, memory, right);
      BinaryValue(op, a, b)
  }

  /** The state after pushing a value, or the error. */
  function Pushed(s: State, v: Result<int, VmError>): Result<State, VmError> {
    match v
    case Ok(x) => Ok(s.(stack := s.stack + [x]))
    case Err(err) => Err(err)
  }

  /** Running two lists in a row is running their concatenation. */
  lemma {:induction false} ExecAllConcat(prog: seq<Entry>, s: State, c1: seq<Entry>, c2: seq<Entry>)
    requires Valid(s)
    ensures ExecAll(prog, s, c1 + c2) ==
            (match ExecAll(prog, s, c1)
             case Ok(mid) => ExecAll(prog, mid, c2)
             case Err(err) => Err(err))
    decreases c1
  {
    if c1 == [] {
      assert c1 + c2 == c2;
    } else {
      assert (c1 + c2)[0] == c1[0] && (c1 + c2)[1..] == c1[1..] + c2;
      var next := Execute(prog, s, c1[0]);
      if next.Ok? {
        ExecAllConcat(prog, next.value, c1[1..], c2);
      }
    }
  }

  lemma ExecOne(prog: seq<Entry>, s: State, e: Entry)
    requires Valid(s)
    ensures ExecAll(prog, s, [e]) == Execute(prog, s, e)
  {
    assert [e][1..] == [];
    var r := Execute(prog, s, e);
    if r.Ok? {
      assert ExecAll(prog, r.value, []) == r;
    }
  }

  lemma ExecTwo(prog: seq<Entry>, s: State, e1: Entry, e2: Entry)
    requires Valid(s)
    ensures var first := Execute(prog, s, e1);
            ExecAll(prog, s, [e1, e2]) == if first.Ok? then Execute(prog, first.value, e2) else Err(first.error)
  {
    assert [e1, e2][1..] == [e2];
    var first := Execute(prog, s, e1);
    if first.Ok? {
      ExecOne(prog, first.value, e2);
    }
  }

  lemma ExecThree(prog: seq<Entry>, s: State, e1: Entry, e2: Entry, e3: Entry)
    requires Valid(s)
    ensures var first := Execute(prog, s, e1);
            ExecAll(prog, s, [e1, e2, e3]) == if first.Ok? then ExecAll(prog, first.value, [e2, e3]) else Err(first.error)
  {
    assert [e1, e2, e3][1..] == [e2, e3];
  }

  /** A binary opcode applied to a stack whose top two values are `a` and `b`. */
  lemma BinaryStep(prog: seq<Entry>, s: State, op: Opcode, a: int, b: int)
    requires Valid(s) && IsBinary(op)
    ensures var r := Apply(op, a, b);
            Execute(prog, s.(stack := s.stack + [a, b]), Emit(op)) ==
            if r.Ok? then Ok(s.(stack := s.stack + [r.value])) else Err(r.error)
  {
    var t := s.(stack := s.stack + [a, b]);
    var n := |t.stack|;
    assert t.stack[..n - 2] == s.stack && t.stack[n - 2] == a && t.stack[n - 1] == b;
  }

  /** `<=` on integers, lowered through `b + 1`. */
  lemma LessEqualCorrect(prog: seq<Entry>, s: State, a: int, b: int)
    requires Valid(s)
    ensures ExecAll(prog, s.(stack := s.stack + [a, b]), OperatorCode(LessEqualOp)) == Pushed(s, BinaryValue(LessEqualOp, a, b))
  {
    var t := s.(stack := s.stack + [a, b]);
    var u := t.(stack := t.stack + [1]);
    assert u == t.(stack := (s.stack + [a]) + [b, 1]);
    BinaryStep(prog, t.(stack := s.stack + [a]), Add, b, 1);
    var w := t.(stack := s.stack + [a, b + 1]);
    assert (s.stack + [a]) + [b + 1] == s.stack + [a, b + 1];
    BinaryStep(prog, s, Lt, a, b + 1);
    ExecThree(prog, t, Instr(Push, Num(1)), Emit(Add), Emit(Lt));
    ExecTwo(prog, u, Emit(Add), Emit(Lt));
  }

  /** `>=` on integers, lowered through `b - 1`. */
  lemma GreaterEqualCorrect(prog: seq<Entry>, s: State, a: int, b: int)
    requires Valid(s)
    ensures ExecAll(prog, s.(stack := s.stack + [a, b]), OperatorCode(GreaterEqualOp)) == Pushed(s, BinaryValue(GreaterEqualOp, a, b))
  {
    var t := s.(stack := s.stack + [a, b]);
    var u := t.(stack := t.stack + [1]);
    assert u == t.(stack := (s.stack + [a]) + [b, 1]);
    BinaryStep(prog, t.(stack := s.stack + [a]), Sub, b, 1);
    assert (s.stack + [a]) + [b - 1] == s.stack + [a, b - 1];
    BinaryStep(prog, s, Gt, a, b - 1);
    ExecThree(prog, t, Instr(Push, Num(1)), Emit(Sub), Emit(Gt));
    ExecTwo(prog, u, Emit(Sub), Emit(Gt));
  }

  /** `!=` lowered as EQ then NOT. */
  lemma NotEqualCorrect(prog: seq<Entry>, s: State, a: int, b: int)
    requires Valid(s)
    ensures ExecAll(prog, s.(stack := s.stack + [a, b]), OperatorCode(NotEqualOp)) == Pushed(s, BinaryValue(NotEqualOp, a, b))
  {
    var t := s.(stack := s.stack + [a, b]);
    BinaryStep(prog, s, Eq, a, b);
    var w := s.(stack := s.stack + [if a == b then 1 else 0]);
    assert w.stack[..|w.stack| - 1] == s.stack;
    ExecTwo(prog, t, Emit(Eq), Emit(Not));
  }

  /** Each operator's code pops its two operands and pushes the operator's value. */
  lemma OperatorCorrect(prog: seq<Entry>, s: State, op: BinOp, a: int, b: int)
    requires Valid(s)
    ensures ExecAll(prog, s.(stack := s.stack + [a, b]), OperatorCode(op)) == Pushed(s, BinaryValue(op, a, b))
  {
    var t := s.(stack := s.stack + [a, b]);
    match op
    case LessEqualOp => LessEqualCorrect(prog, s, a, b);
    case GreaterEqualOp => GreaterEqualCorrect(prog, s, a, b);
    case NotEqualOp => NotEqualCorrect(prog, s, a, b);
    case AddOp => BinaryStep(prog, s, Add, a, b); ExecOne(prog, t, Emit(Add));
    case SubOp => BinaryStep(prog, s, Sub, a, b); ExecOne(prog, t, Emit(Sub));
    case MulOp => BinaryStep(prog, s, Mul, a, b); ExecOne(prog, t, Emit(Mul));
    case DivOp => BinaryStep(prog, s, Div, a, b); ExecOne(prog, t, Emit(Div));
    case LessOp => BinaryStep(prog, s, Lt, a, b); ExecOne(prog, t, Emit(Lt));
    case GreaterOp => BinaryStep(prog, s, Gt, a, b); ExecOne(prog, t, Emit(Gt));
    case EqualOp => BinaryStep(prog, s, Eq, a, b); ExecOne(prog, t, Emit(Eq));
    case AndOp => BinaryStep(prog, s, And, a, b); ExecOne(prog, t, Emit(And));
    case OrOp => BinaryStep(prog, s, Or, a, b); ExecOne(prog, t, Emit(Or));
  }

  /** Unary code pops the operand and pushes the operator's value. */
  lemma UnaryCorrect(prog: seq<Entry>, s: State, uop: UnOp, x: int)
    requires Valid(s)
    ensures ExecAll(prog, s.(stack := s.stack + [x]), UnaryCode(uop)) == Ok(s.(stack := s.stack + [UnaryValue(uop, x)]))
  {
    var t := s.(stack := s.stack + [x]);
    assert t.stack[..|t.stack| - 1] == s.stack;
    if uop == NegOp {
      var u := s.(stack := s.stack + [x, 0]);
      var w := s.(stack := s.stack + [0, x]);
      assert t.stack + [0] == u.stack;
      assert Execute(prog, t, Instr(Push, Num(0))) == Ok(u);
      assert u.stack[..|u.stack| - 2] == s.stack;
      assert Execute(prog, u, Emit(Swap)) == Ok(w);
      BinaryStep(prog, s, Sub, 0, x);
      ExecThree(prog, t, Instr(Push, Num(0)), Emit(Swap), Emit(Sub));
      ExecTwo(prog, u, Emit(Swap), Emit(Sub));
    } else {
      ExecOne(prog, t, Emit(Not));
    }
  }

  /**
    The generated code of an expression, run from any state, pushes the
    expression's value and changes nothing else; when evaluation fails, the
    code fails with the same error.
  */
  lemma {:induction false} ExprCodeCorrect(prog: seq<Entry>, slots: map<string, int>, s: State, e: Expr)
    requires Valid(s) && Names(e) <= slots.Keys
    ensures ExecAll(prog, s, ExprCode(slots, e).value) == Pushed(s, Eval(slots, s.memory, e))
    decreases e, 1
  {
    match e
    case Literal(lit) =>
    case Identifier(name) =>
    case UnaryOp(uop, operand) =>
      UnaryCodeCorrect(prog, slots, s, uop, operand);
    case BinaryOp(left, op, right) =>
      BinaryCodeCorrect(prog, slots, s, left, op, right);
  }

  /** The unary case of ExprCodeCorrect: the operand's code, then the operator's. */
  lemma {:induction false} UnaryCodeCorrect(prog: seq<Entry>, slots: map<string, int>, s: State, uop: UnOp, operand: Expr)
    requires Valid(s) && Names(operand) <= slots.Keys
    ensures ExecAll(prog, s, ExprCode(slots, UnaryOp(uop, operand)).value) == Pushed(s, Eval(slots, s.memory, UnaryOp(uop, operand)))
    decreases UnaryOp(uop, operand), 0
  {
    var code := ExprCode(slots, operand).value;
    assert ExprCode(slots, UnaryOp(uop, operand)).value == code + UnaryCode(uop);
    ExprCodeCorrect(prog, slots, s, operand);
    ExecAllConcat(prog, s, code, UnaryCode(uop));
    var x := Eval(slots, s.memory, operand);
    if x.Ok? {
      UnaryCorrect(prog, s, uop, x.value);
    }
  }

  /** The binary case of ExprCodeCorrect: the left operand's code, the right's, then the operator's. */
  lemma {:induction false} BinaryCodeCorrect(prog: seq<Entry>, slots: map<string, int>, s: State, left: Expr, op: BinOp, right: Expr)
    requires Valid(s) && Names(left) <= slots.Keys && Names(right) <= slots.Keys
    ensures ExecAll(prog, s, ExprCode(slots, BinaryOp(left, op, right)).value) ==
            Pushed(s, Eval(slots, s.memory, BinaryOp(left, op, right)))
    decreases BinaryOp(left, op, right), 0
  {
    var leftCode, rightCode := ExprCode(slots, left).value, ExprCode(slots, right).value;
    assert ExprCode(slots, BinaryOp(left, op, right)).value == leftCode + rightCode + OperatorCode(op);
    ExprCodeCorrect(prog, slots, s, left);
    ExecAllConcat(prog, s, leftCode + rightCode, OperatorCode(op));
    ExecAllConcat(prog, s, leftCode, rightCode);
    var a := Eval(slots, s.memory, left);
    if a.Err? {
      assert ExecAll(prog, s, leftCode + rightCode) == Err(a.error);
    } else {
      var s1 := s.(stack := s.stack + [a.value]);
      ExprCodeCorrect(prog, slots, s1, right);
      var b := Eval(slots, s.memory, right);
      if b.Err? {
        assert ExecAll(prog, s, leftCode + rightCode) == Err(b.error);
      } else {
        assert s1.(stack := s1.stack + [b.value]) == s.(stack := s.stack + [a.value, b.value]);
        assert ExecAll(prog, s, leftCode + rightCode) == Ok(s.(stack := s.stack + [a.value, b.value]));
        OperatorCorrect(prog, s, op, a.value, b.value);
      }
    }
  }

  /**
    As written, `!=` adds no instruction after its operands' code, so both
    operands stay on the stack where one 0/1 value belongs.
  */
  lemma NotEqualAsWritten(prog: seq<Entry>, s: State, a: int, b: int)
    requires Valid(s)
    ensures ExecAll(prog, s.(stack := s.stack + [a, b]), OperatorCodeAsWritten(NotEqualOp)) == Ok(s.(stack := s.stack + [a, b]))
    ensures ExecAll(prog, s.(stack := s.stack + [a, b]), OperatorCodeAsWritten(NotEqualOp)) != Pushed(s, BinaryValue(NotEqualOp, a, b))
  {
    assert |s.stack + [a, b]| != |Pushed(s, BinaryValue(NotEqualOp, a, b)).value.stack|;
  }
}
