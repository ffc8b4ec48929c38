/**
  The stack machine, as functions on its state: an operand stack, a memory of
  1024 cells, a program counter and the values printed so far. Runtime values
  are integers; booleans are 0 and 1. Floating point is not modelled: pushing a
  float literal is refused with FloatNotModelled.
*/
module Machine {
  import opened Wrappers

  datatype Opcode =
    | Push | Pop | Add | Sub | Mul | Div | Lt | Gt | Eq | And | Or | Not
    | Jmp | Jz | Store | Load | Halt | Swap | Dup | Print

  /** An instruction's optional operand: a value, a memory slot or a label name. */
  datatype Operand = NoOperand | Num(n: int) | Real(text: string) | Label(name: string)

  /** A program entry: an instruction, or a label marker such as "L1:". */
  datatype Entry = Instr(opcode: Opcode, operand: Operand) | Marker(text: string)

  datatype VmError =
    | StackUnderflow
    | DivisionByZero
    | LabelNotFound(target: Operand)
    | MemoryOutOfRange(slot: int)
    | BadOperand(operand: Operand)
    | FloatNotModelled
    | FuelExhausted

  const MemorySize: nat := 1024

  datatype State = State(stack: seq<int>, memory: seq<int>, pc: int, output: seq<int>)

  /** The memory of a state has its fixed size. */
  predicate Valid(s: State) {
    |s.memory| == MemorySize
  }

  /** Empty stack, every cell 0, counter at the first entry, nothing printed. */
  function Fresh(): (s: State)
    ensures Valid(s) && s.stack == [] && s.pc == 0 && s.output == []
    ensures forall i :: 0 <= i < MemorySize ==> s.memory[i] == 0
  {
    State([], seq(MemorySize, _ => 0), 0, [])
  }

  /** Is `e` the marker of the label `target` names: its text is the label's name followed by ':'. */
  predicate IsMarkerFor(e: Entry, target: Operand)
  {
    e.Marker? && |e.text| > 0 && e.text[|e.text| - 1] == ':' && target == Label(e.text[..|e.text| - 1])
  }

  /** A marker names label `L` exactly when its text is `L` followed by a colon. */
  lemma MarkerText(e: Entry, target: Operand)
    ensures IsMarkerFor(e, target) <==> e.Marker? && target.Label? && e.text == target.name + ":"
  {
    if e.Marker? && target.Label? && e.text == target.name + ":" {
      assert e.text[..|e.text| - 1] == target.name;
    }
  }

  /** The index of the first marker of label `target` at or after `from`. */
  function FindFrom(prog: seq<Entry>, target: Operand, from: nat): (r: Result<nat, VmError>)
    requires from <= |prog|
    ensures r.Ok? ==> from <= r.value < |prog| && IsMarkerFor(prog[r.value], target) &&
                      forall j :: from <= j < r.value ==> !IsMarkerFor(prog[j], target)
    ensures r.Err? ==> r.error == LabelNotFound(target) &&
                       forall j :: from <= j < |prog| ==> !IsMarkerFor(prog[j], target)
    decreases |prog| - from
  {
    if from == |prog| then Err(LabelNotFound(target))
    else if IsMarkerFor(prog[from], target) then Ok(from)
    else FindFrom(prog, target, from + 1)
  }

  /** The index of the first marker of label `target` in the program. */
  function FindLabel(prog: seq<Entry>, target: Operand): Result<nat, VmError>
  {
    FindFrom(prog, target, 0)
  }

  /** FindLabel answers with the first marker of the label, and fails exactly when there is none. */
  lemma FindLabelFirst(prog: seq<Entry>, target: Operand)
    ensures var r := FindLabel(prog, target);
            r.Ok? ==> r.value < |prog| && IsMarkerFor(prog[r.value], target) &&
                      forall j :: 0 <= j < r.value ==> !IsMarkerFor(prog[j], target)
    ensures FindLabel(prog, target).Err? <==> forall j :: 0 <= j < |prog| ==> !IsMarkerFor(prog[j], target)
  {
  }

  /** Python's floor division `a // b` on integers. */
  function FloorDiv(a: int, b: int): int
    requires b != 0
  {
    if b > 0 then a / b else (-a) / (-b)
  }

  /** The cell a list index addresses in a list of MemorySize cells, negative indices counting from the end. */
  function Cell(slot: int): (r: Result<nat, VmError>)
    ensures r.Ok? <==> -(MemorySize as int) <= slot < MemorySize
    ensures r.Ok? ==> r.value < MemorySize && (r.value == slot || r.value == slot + MemorySize)
  {
    if 0 <= slot < MemorySize then Ok(slot)
    else if -(MemorySize as int) <= slot < 0 then Ok(slot + MemorySize)
    else Err(MemoryOutOfRange(slot))
  }

  /** The opcodes that pop two values and push one. */
  predicate IsBinary(op: Opcode) {
    op == Add || op == Sub || op == Mul || op == Div || op == Lt || op == Gt || op == Eq || op == And || op == Or
  }

  /**
    The result of a binary opcode on `a` (pushed first) and `b` (on top).
    Comparisons give 0 or 1; `and`/`or` follow Python on integers: `a and b`
    is 0 when `a` is 0 and `b` otherwise, `a or b` is `a` unless it is 0.
  */
  function Apply(op: Opcode, a: int, b: int): (r: Result<int, VmError>)
    requires IsBinary(op)
    ensures r.Err? <==> op == Div && b == 0
    ensures r.Err? ==> r.error == DivisionByZero
  {
    match op
    case Add => Ok(a + b)
    case Sub => Ok(a - b)
    case Mul => Ok(a * b)
    case Div => if b == 0 then Err(DivisionByZero) else Ok(FloorDiv(a, b))
    case Lt => Ok(if a < b then 1 else 0)
    case Gt => Ok(if a > b then 1 else 0)
    case Eq => Ok(if a == b then 1 else 0)
    case And => Ok(if a == 0 then 0 else b)
    case Or => Ok(if a != 0 then a else b)
  }

  function Top(s: State): int
    requires |s.stack| > 0
  {
    s.stack[|s.stack| - 1]
  }

  function Popped(s: State): State
    requires |s.stack| > 0
  {
    s.(stack := s.stack[..|s.stack| - 1])
  }

  /**
    One entry's effect. A jump leaves the counter one before the marker it
    resolves to and HALT sets it to the program's length; the caller then
    advances it by one. A marker changes nothing.
  */
  function Execute(prog: seq<Entry>, s: State, e: Entry): (r: Result<State, VmError>)
    requires Valid(s)
    ensures r.Ok? ==> Valid(r.value)
    ensures r.Ok? ==> |s.output| <= |r.value.output| && r.value.output[..|s.output|] == s.output
    ensures r.Ok? ==> r.value.pc == s.pc || r.value.pc == |prog| ||
                      (0 <= r.value.pc + 1 < |prog| && prog[r.value.pc + 1].Marker?)
  {
    match e
    case Marker(_) => Ok(s)
    case Instr(op, arg) =>
      match op
      case Push =>
        (match arg
         case Num(n) => Ok(s.(stack := s.stack + [n]))
         case Real(_) => Err(FloatNotModelled)
         case _ => Err(BadOperand(arg)))
      case Pop =>
        if |s.stack| < 1 then Err(StackUnderflow) else Ok(Popped(s))
      case Swap =>
        if |s.stack| < 2 then Err(StackUnderflow)
        else
          var n := |s.stack|;
          Ok(s.(stack := s.stack[..n - 2] + [s.stack[n - 1], s.stack[n - 2]]))
      case Not =>
        if |s.stack| < 1 then Err(StackUnderflow)
        else Ok(Popped(s).(stack := Popped(s).stack + [if Top(s) == 0 then 1 else 0]))
      case Jmp =>
        var at :- FindLabel(prog, arg);
        Ok(s.(pc := at - 1))
      case Jz =>
        if |s.stack| < 1 then Err(StackUnderflow)
        else if Top(s) == 0 then
          var at :- FindLabel(prog, arg);
          Ok(Popped(s).(pc := at - 1))
        else Ok(Popped(s))
      case Store =>
        if |s.stack| < 1 then Err(StackUnderflow)
        else if !arg.Num? then Err(BadOperand(arg))
        else
          var cell :- Cell(arg.n);
          Ok(Popped(s).(memory := s.memory[cell := Top(s)]))
      case Load =>
        if !arg.Num? then Err(BadOperand(arg))
        else
          var cell :- Cell(arg.n);
          Ok(s.(stack := s.stack + [s.memory[cell]]))
      case Print =>
        if |s.stack| < 1 then Err(StackUnderflow)
        else Ok(Popped(s).(output := s.output + [Top(s)]))
      case Halt => Ok(s.(pc := |prog|))
      case Dup => Ok(s)
      case _ =>
        if |s.stack| < 2 then Err(StackUnderflow)
        else
          var n := |s.stack|;
          match Apply(op, s.stack[n - 2], s.stack[n - 1])
          case Ok(v) => Ok(s.(stack := s.stack[..n - 2] + [v]))
          case Err(err) => Err(err)
  }

  /** Executes the entry at the counter, then advances the counter by one. */
  function Step(prog: seq<Entry>, s: State): (r: Result<State, VmError>)
    requires Valid(s) && 0 <= s.pc < |prog|
    ensures r.Ok? ==> Valid(r.value) && r.value.pc >= 0
  {
    var next :- Execute(prog, s, prog[s.pc]);
    Ok(next.(pc := next.pc + 1))
  }

  /**
    Runs until the counter reaches or passes the end of the program, for at
    most `fuel` steps; the source's loop has no bound, so running out of fuel
    is reported as FuelExhausted.
  */
  function Run(prog: seq<Entry>, s: State, fuel: nat): (r: Result<State, VmError>)
    requires Valid(s) && s.pc >= 0
    ensures r.Ok? ==> Valid(r.value) && r.value.pc >= |prog|
    decreases fuel
  {
    if s.pc >= |prog| then Ok(s)
    else if fuel == 0 then Err(FuelExhausted)
    else
      var next :- Step(prog, s);
      Run(prog, next, fuel - 1)
  }
}
