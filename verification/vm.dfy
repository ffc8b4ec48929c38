/**
  The virtual machine as an object: the stack, the program counter and the
  printed output are fields it reassigns, the memory an array of 1024 cells
  written in place. Each method is proved to do what module Machine says.
*/
module Vm {
  import opened Wrappers
  import opened Machine

  class SAMVirtualMachine {
    const instructions: seq<Entry>
    var stack: seq<int>
    const memory: array<int>
    var pc: int
    /** What PRINT has written, in order. */
    var output: seq<int>

    /** The machine's state as a value. */
    function Snapshot(): State
      reads this, memory
    {
      State(stack, memory[..], pc, output)
    }

    /** A fresh machine: empty stack, every cell 0, counter at the first entry. */
    constructor(instructions: seq<Entry>)
      ensures this.instructions == instructions && fresh(memory)
      ensures Snapshot() == Fresh()
    {
      this.instructions := instructions;
      stack := [];
      memory := new int[MemorySize](_ => 0);
      pc := 0;
      output := [];
    }

    /** Removes and returns the top of the stack; an empty stack is an underflow. */
    method PopTop() returns (r: Result<int, VmError>)
      modifies this
      ensures |old(stack)| == 0 ==> r == Err(StackUnderflow) && stack == old(stack)
      ensures |old(stack)| > 0 ==> r == Ok(old(stack)[|old(stack)| - 1]) && stack == old(stack)[..|old(stack)| - 1]
      ensures pc == old(pc) && output == old(output)
    {
      if |stack| == 0 {
        return Err(StackUnderflow);
      }
      r := Ok(stack[|stack| - 1]);
      stack := stack[..|stack| - 1];
    }

    /** The index of the first marker of label `target`, by a linear search. */
    method FindLabel(target: Operand) returns (r: Result<nat, VmError>)
      ensures r == Machine.FindLabel(instructions, target)
    {
      var i := 0;
      while i < |instructions|
        invariant 0 <= i <= |instructions|
        invariant Machine.FindLabel(instructions, target) == FindFrom(instructions, target, i)
      {
        if IsMarkerFor(instructions[i], target) {
          return Ok(i);
        }
        i := i + 1;
      }
      return Err(LabelNotFound(target));
    }

    /** A binary opcode: pops `b`, then `a`, and pushes `a op b`. */
    method ExecuteBinary(op: Opcode, arg: Operand) returns (r: Result<(), VmError>)
      requires IsBinary(op) && memory.Length == MemorySize
      modifies this
      ensures var spec := Machine.Execute(instructions, old(Snapshot()), Instr(op, arg));
              (r.Ok? <==> spec.Ok?) && (r.Ok? ==> Snapshot() == spec.value) && (r.Err? ==> r.error == spec.error)
    {
      ghost var n := |stack|;
      var b :- PopTop();
      var a :- PopTop();
      assert old(stack)[..n - 2] == stack && a == old(stack)[n - 2];
      var v :- Apply(op, a, b);
      stack := stack + [v];
      return Ok(());
    }

    /** PUSH, POP, SWAP and NOT: the stack alone changes. */
    method ExecuteStack(op: Opcode, arg: Operand) returns (r: Result<(), VmError>)
      requires op in {Push, Pop, Swap, Not} && memory.Length == MemorySize
      modifies this
      ensures var spec := Machine.Execute(instructions, old(Snapshot()), Instr(op, arg));
              (r.Ok? <==> spec.Ok?) && (r.Ok? ==> Snapshot() == spec.value) && (r.Err? ==> r.error == spec.error)
    {
      match op {
        case Push =>
          match arg {
            case Num(n) =>
              stack := stack + [n];
              return Ok(());
            case Real(_) =>
              return Err(FloatNotModelled);
            case _ =>
              return Err(BadOperand(arg));
          }
        case Pop =>
          var _ :- PopTop();
          return Ok(());
        case Swap =>
          ghost var n := |stack|;
          var a :- PopTop();
          var b :- PopTop();
          stack := stack + [a, b];
          return Ok(());
        case Not =>
          var a :- PopTop();
          stack := stack + [if a == 0 then 1 else 0];
          return Ok(());
      }
    }

    /** JMP and JZ: the counter is left one before the label's marker when the jump is taken. */
    method ExecuteJump(op: Opcode, arg: Operand) returns (r: Result<(), VmError>)
      requires op in {Jmp, Jz} && memory.Length == MemorySize
      modifies this
      ensures var spec := Machine.Execute(instructions, old(Snapshot()), Instr(op, arg));
              (r.Ok? <==> spec.Ok?) && (r.Ok? ==> Snapshot() == spec.value) && (r.Err? ==> r.error == spec.error)
    {
      if op == Jmp {
        var at :- FindLabel(arg);
        pc := at as int - 1;
        return Ok(());
      }
      var v :- PopTop();
      if v == 0 {
        var at :- FindLabel(arg);
        pc := at as int - 1;
      }
      return Ok(());
    }

    /** STORE and LOAD: one memory cell is written, or read onto the stack. */
    method ExecuteMemory(op: Opcode, arg: Operand) returns (r: Result<(), VmError>)
      requires op in {Store, Load} && memory.Length == MemorySize
      modifies this, memory
      ensures var spec := Machine.Execute(instructions, old(Snapshot()), Instr(op, arg));
              (r.Ok? <==> spec.Ok?) && (r.Ok? ==> Snapshot() == spec.value) && (r.Err? ==> r.error == spec.error)
    {
      if op == Store {
        var v :- PopTop();
        if !arg.Num? {
          return Err(BadOperand(arg));
        }
        var cell :- Cell(arg.n);
        memory[cell] := v;
        return Ok(());
      }
      if !arg.Num? {
        return Err(BadOperand(arg));
      }
      var cell :- Cell(arg.n);
      stack := stack + [memory[cell]];
      return Ok(());
    }

    /** One entry's effect on the machine; the counter is advanced by Run, not here. */
    method Execute(e: Entry) returns (r: Result<(), VmError>)
      requires memory.Length == MemorySize
      modifies this, memory
      ensures var spec := Machine.Execute(instructions, old(Snapshot()), e);
              (r.Ok? <==> spec.Ok?) && (r.Ok? ==> Snapshot() == spec.value) && (r.Err? ==> r.error == spec.error)
    {
      if e.Marker? {
        return Ok(());
      }
      var op, arg := e.opcode, e.operand;
      if op in {Push, Pop, Swap, Not} {
        r := ExecuteStack(op, arg);
      } else if op in {Jmp, Jz} {
        r := ExecuteJump(op, arg);
      } else if op in {Store, Load} {
        r := ExecuteMemory(op, arg);
      } else if op == Print {
        var v :- PopTop();
        output := output + [v];
        return Ok(());
      } else if op == Halt {
        pc := |instructions|;
        return Ok(());
      } else if op == Dup {
        return Ok(());
      } else {
        r := ExecuteBinary(op, arg);
      }
    }

    /**
      The fetch-execute loop: runs the entry at the counter and advances the
      counter, until the counter reaches or passes the end of the program. At
      most `fuel` entries are run; the source's loop has no such bound.
    */
    method Run(fuel: nat) returns (r: Result<(), VmError>)
      requires memory.Length == MemorySize && pc >= 0
      modifies this, memory
      ensures var spec := Machine.Run(instructions, old(Snapshot()), fuel);
              (r.Ok? <==> spec.Ok?) && (r.Ok? ==> Snapshot() == spec.value) && (r.Err? ==> r.error == spec.error)
    {
      var steps := 0;
      while true
        invariant 0 <= steps <= fuel && pc >= 0
        invariant Machine.Run(instructions, old(Snapshot()), fuel) == Machine.Run(instructions, Snapshot(), fuel - steps)
        decreases fuel - steps
      {
        if pc >= |instructions| {
          return Ok(());
        }
        if steps == fuel {
          return Err(FuelExhausted);
        }
        r := Execute(instructions[pc]);
        if r.Err? {
          return;
        }
        pc := pc + 1;
        steps := steps + 1;
      }
    }
  }
}
