/** The effect of each opcode on the machine state, and how a run ends. */
module MachineFacts {
  import opened Wrappers
  import opened Machine

  /** `a // b` rounds towards negative infinity. */
  lemma FloorDivIsFloor(a: int, b: int)
    requires b != 0
    ensures b > 0 ==> FloorDiv(a, b) * b <= a < (FloorDiv(a, b) + 1) * b
    ensures b < 0 ==> (FloorDiv(a, b) + 1) * b < a <= FloorDiv(a, b) * b
  {
    var q := FloorDiv(a, b);
    if b > 0 {
      assert a == q * b + a % b;
    } else {
      assert -a == q * (-b) + (-a) % (-b);
    }
  }

  /**
    A binary opcode pops `b`, then `a`, and pushes `a op b`: the stack is one
    lower and nothing else changes. Fewer than two values is an underflow.
  */
  lemma BinaryEffect(prog: seq<Entry>, s: State, op: Opcode, arg: Operand)
    requires Valid(s) && IsBinary(op)
    ensures var r := Execute(prog, s, Instr(op, arg));
            |s.stack| < 2 ==> r == Err(StackUnderflow)
    ensures var r := Execute(prog, s, Instr(op, arg));
            var n := |s.stack|;
            n >= 2 ==>
              (r.Ok? <==> !(op == Div && s.stack[n - 1] == 0)) &&
              (r.Ok? ==> r.value.stack == s.stack[..n - 2] + [Apply(op, s.stack[n - 2], s.stack[n - 1]).value] &&
                         |r.value.stack| == n - 1 &&
                         r.value.memory == s.memory && r.value.pc == s.pc && r.value.output == s.output)
  {
  }

  /** Comparisons and NOT yield 0 or 1; on 0/1 operands AND and OR are the logical connectives. */
  lemma BooleanResults(a: int, b: int)
    ensures forall op :: op in {Lt, Gt, Eq} ==> Apply(op, a, b).value in {0, 1}
    ensures a in {0, 1} && b in {0, 1} ==>
              Apply(And, a, b) == Ok(if a == 1 && b == 1 then 1 else 0) &&
              Apply(Or, a, b) == Ok(if a == 1 || b == 1 then 1 else 0)
  {
  }

  lemma NotEffect(prog: seq<Entry>, s: State, arg: Operand)
    requires Valid(s)
    ensures var r := Execute(prog, s, Instr(Not, arg));
            (r.Ok? <==> |s.stack| >= 1) &&
            (r.Ok? ==> r.value.stack == s.stack[..|s.stack| - 1] + [if Top(s) == 0 then 1 else 0] &&
                       Top(r.value) in {0, 1} && r.value.memory == s.memory && r.value.pc == s.pc)
  {
  }

  /** PUSH raises the stack by one, POP lowers it by one, SWAP exchanges the top two. */
  lemma StackEffects(prog: seq<Entry>, s: State, n: int, arg: Operand)
    requires Valid(s)
    ensures Execute(prog, s, Instr(Push, Num(n))) == Ok(s.(stack := s.stack + [n]))
    ensures var r := Execute(prog, s, Instr(Pop, arg));
            (r.Ok? <==> |s.stack| >= 1) && (r.Ok? ==> r.value.stack + [Top(s)] == s.stack && r.value.memory == s.memory)
    ensures var r := Execute(prog, s, Instr(Swap, arg));
            var k := |s.stack|;
            (r.Ok? <==> k >= 2) &&
            (r.Ok? ==> |r.value.stack| == k && r.value.stack[..k - 2] == s.stack[..k - 2] &&
                       r.value.stack[k - 1] == s.stack[k - 2] && r.value.stack[k - 2] == s.stack[k - 1] &&
                       r.value.memory == s.memory)
  {
  }

  /** A marker, and DUP, change nothing but the counter. */
  lemma MarkerStep(prog: seq<Entry>, s: State)
    requires Valid(s) && 0 <= s.pc < |prog| && (prog[s.pc].Marker? || prog[s.pc].opcode == Dup)
    ensures Step(prog, s) == Ok(s.(pc := s.pc + 1))
  {
  }

  /** After JMP the next entry to run is the label's first marker; an absent label is an error. */
  lemma JmpStep(prog: seq<Entry>, s: State)
    requires Valid(s) && 0 <= s.pc < |prog| && prog[s.pc].Instr? && prog[s.pc].opcode == Jmp
    ensures var r := Step(prog, s);
            var l := FindLabel(prog, prog[s.pc].operand);
            (r.Ok? <==> l.Ok?) &&
            (r.Ok? ==> r.value == s.(pc := l.value) && IsMarkerFor(prog[r.value.pc], prog[s.pc].operand) &&
                       forall j :: 0 <= j < r.value.pc ==> !IsMarkerFor(prog[j], prog[s.pc].operand))
  {
  }

  /** JZ pops the top; it jumps to the label's marker when that value is 0 and falls through otherwise. */
  lemma JzStep(prog: seq<Entry>, s: State)
    requires Valid(s) && 0 <= s.pc < |prog| && prog[s.pc].Instr? && prog[s.pc].opcode == Jz && |s.stack| >= 1
    ensures var r := Step(prog, s);
            var l := FindLabel(prog, prog[s.pc].operand);
            (Top(s) != 0 ==> r == Ok(Popped(s).(pc := s.pc + 1))) &&
            (Top(s) == 0 ==> (r.Ok? <==> l.Ok?) && (r.Ok? ==> r.value == Popped(s).(pc := l.value)))
  {
  }

  /** STORE writes the popped value to its one cell and to no other; LOAD leaves memory alone. */
  lemma StoreLoadFrame(prog: seq<Entry>, s: State, slot: int)
    requires Valid(s) && -(MemorySize as int) <= slot < MemorySize
    ensures var r := Execute(prog, s, Instr(Store, Num(slot)));
            var c := Cell(slot).value;
            (r.Ok? <==> |s.stack| >= 1) &&
            (r.Ok? ==> r.value.memory[c] == Top(s) && r.value.stack == Popped(s).stack &&
                       forall i :: 0 <= i < MemorySize && i != c ==> r.value.memory[i] == s.memory[i])
    ensures var r := Execute(prog, s, Instr(Load, Num(slot)));
            r == Ok(s.(stack := s.stack + [s.memory[Cell(slot).value]]))
  {
  }

  /** A slot outside the memory is an error. */
  lemma OutOfRangeSlot(prog: seq<Entry>, s: State, slot: int)
    requires Valid(s) && |s.stack| >= 1 && !(-(MemorySize as int) <= slot < MemorySize)
    ensures Execute(prog, s, Instr(Store, Num(slot))) == Err(MemoryOutOfRange(slot))
    ensures Execute(prog, s, Instr(Load, Num(slot))) == Err(MemoryOutOfRange(slot))
  {
  }

  /** HALT ends the run at once: nothing after it executes. */
  lemma HaltStops(prog: seq<Entry>, s: State, fuel: nat)
    requires Valid(s) && 0 <= s.pc < |prog| && prog[s.pc].Instr? && prog[s.pc].opcode == Halt && fuel > 0
    ensures Run(prog, s, fuel) == Ok(s.(pc := |prog| + 1))
  {
    assert Step(prog, s) == Ok(s.(pc := |prog| + 1));
  }

  /** More fuel does not change a run that finished. */
  lemma {:induction false} RunMonotone(prog: seq<Entry>, s: State, fuel: nat, more: nat)
    requires Valid(s) && s.pc >= 0 && fuel <= more && Run(prog, s, fuel).Ok?
    ensures Run(prog, s, more) == Run(prog, s, fuel)
    decreases fuel
  {
    if s.pc < |prog| {
      var next := Step(prog, s).value;
      RunMonotone(prog, next, fuel - 1, more - 1);
    }
  }

  /** A run only appends to the output. */
  lemma {:induction false} RunOutputGrows(prog: seq<Entry>, s: State, fuel: nat)
    requires Valid(s) && s.pc >= 0 && Run(prog, s, fuel).Ok?
    ensures var out := Run(prog, s, fuel).value.output;
            |s.output| <= |out| && out[..|s.output|] == s.output
    decreases fuel
  {
    if s.pc < |prog| {
      var next := Step(prog, s).value;
      RunOutputGrows(prog, next, fuel - 1);
      assert next.output[..|s.output|] == s.output;
    }
  }
}
