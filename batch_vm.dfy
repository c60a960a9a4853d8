/**
 * The batch Intcode executor of AOC19-05.js: `Run` copies the program into a
 * memory array and executes it in one loop until opcode 99 or until the
 * pointer leaves the array, calling the input callback once per input
 * instruction and the output callback once per output instruction.
 *
 * The input callback is the function `input`: its k-th call (counting from
 * 0) returns `input(k)`. The output callback's arguments are collected in
 * `outputs`. Steps that would read or write outside the memory array (which
 * JavaScript answers with undefined, or by growing the array) are excluded
 * by the precondition `Defined`.
 */
module BatchVm {
  import opened Decoder

  /** The loop's state: memory, pointer, input callback calls so far, output callback arguments so far. */
  datatype Machine = Machine(memory: seq<int>, pointer: int, calls: nat, outputs: seq<int>)

  /** How `Run` ends: returning the memory, or (in the model only) a step it excludes or an exhausted step budget. */
  datatype Outcome = Finished(final: Machine) | Unmodelled | OutOfFuel

  /** The state on entry of the loop. */
  function Loaded(program: seq<int>): (m: Machine)
    ensures m.memory == program && m.pointer == 0 && m.calls == 0 && m.outputs == []
  {
    Machine(program, 0, 0, [])
  }

  predicate InMemory(m: Machine, index: int) {
    0 <= index < |m.memory|
  }

  /** An operand in mode 1 is the parameter itself; in any other mode it is read by position. */
  function Value(m: Machine, parameter: int, mode: int): int
    requires mode == 1 || InMemory(m, parameter)
  {
    if mode == 1 then parameter else m.memory[parameter]
  }

  predicate Readable(m: Machine, parameter: int, mode: int) {
    mode == 1 || InMemory(m, parameter)
  }

  predicate JumpTaken(op: int, value: int) {
    (op == 5 && value != 0) || (op == 6 && value == 0)
  }

  /** The value opcodes 1, 2, 7 and 8 store: sum, product, less-than flag, equality flag. */
  function Combine(op: int, a: int, b: int): int {
    if op == 1 then a + b
    else if op == 2 then a * b
    else if op == 7 then (if a < b then 1 else 0)
    else (if a == b then 1 else 0)
  }

  /**
   * The loop has ended: the pointer is at or past the end of the memory, or
   * it is on a word whose opcode is 99. A negative pointer does not end it.
   */
  predicate Stopped(m: Machine) {
    m.pointer >= |m.memory| || (m.pointer >= 0 && OpCode(m.memory[m.pointer]) == 99)
  }

  /** Every index the next instruction reads or writes lies inside the memory. */
  predicate Defined(m: Machine) {
    0 <= m.pointer < |m.memory| ==>
      var instruction := m.memory[m.pointer];
      var op := OpCode(instruction);
      var p := m.pointer;
      (op == 3 || op == 4 ==> InMemory(m, p + 1) && InMemory(m, m.memory[p + 1])) &&
      (op == 5 || op == 6 ==>
         InMemory(m, p + 2) && Readable(m, m.memory[p + 1], Modes(instruction)[0]) &&
         (JumpTaken(op, Value(m, m.memory[p + 1], Modes(instruction)[0])) ==>
            Readable(m, m.memory[p + 2], Modes(instruction)[1]))) &&
      (op == 1 || op == 2 || op == 7 || op == 8 ==>
         InMemory(m, p + 3) && Readable(m, m.memory[p + 1], Modes(instruction)[0]) &&
         Readable(m, m.memory[p + 2], Modes(instruction)[1]) && InMemory(m, m.memory[p + 3]))
  }

  /**
   * One pass of the loop body. A negative pointer fetches undefined, whose
   * opcode is NaN, and an opcode outside 1 to 8 matches no branch: both only
   * advance the pointer by one.
   */
  function Exec(m: Machine, input: nat -> int): Machine
    requires !Stopped(m) && Defined(m)
  {
    if m.pointer < 0 then m.(pointer := m.pointer + 1)
    else
      var instruction := m.memory[m.pointer];
      var op := OpCode(instruction);
      if op == 3 || op == 4 then Unary(m, op, input)
      else if op == 5 || op == 6 then Jump(m, op, Modes(instruction))
      else if op == 1 || op == 2 || op == 7 || op == 8 then Ternary(m, op, Modes(instruction))
      else m.(pointer := m.pointer + 1)
  }

  /** Opcodes 3 and 4 address their parameter by position. */
  function Unary(m: Machine, op: int, input: nat -> int): Machine
    requires InMemory(m, m.pointer + 1) && InMemory(m, m.memory[m.pointer + 1]) && 0 <= m.pointer
  {
    var address := m.memory[m.pointer + 1];
    if op == 3 then m.(memory := m.memory[address := input(m.calls)], calls := m.calls + 1, pointer := m.pointer + 2)
    else m.(outputs := m.outputs + [m.memory[address]], pointer := m.pointer + 2)
  }

  /** Opcodes 5 and 6: a taken jump skips the increment; an untaken one moves past both parameters. */
  function Jump(m: Machine, op: int, modes: seq<nat>): Machine
    requires |modes| == 3 && 0 <= m.pointer && InMemory(m, m.pointer + 2)
    requires Readable(m, m.memory[m.pointer + 1], modes[0])
    requires JumpTaken(op, Value(m, m.memory[m.pointer + 1], modes[0])) ==> Readable(m, m.memory[m.pointer + 2], modes[1])
  {
    if JumpTaken(op, Value(m, m.memory[m.pointer + 1], modes[0])) then
      m.(pointer := Value(m, m.memory[m.pointer + 2], modes[1]))
    else m.(pointer := m.pointer + 3)
  }

  /** Opcodes 1, 2, 7 and 8: the third parameter is always a position. */
  function Ternary(m: Machine, op: int, modes: seq<nat>): Machine
    requires |modes| == 3 && 0 <= m.pointer && InMemory(m, m.pointer + 3)
    requires Readable(m, m.memory[m.pointer + 1], modes[0]) && Readable(m, m.memory[m.pointer + 2], modes[1])
    requires InMemory(m, m.memory[m.pointer + 3])
  {
    var a := Value(m, m.memory[m.pointer + 1], modes[0]);
    var b := Value(m, m.memory[m.pointer + 2], modes[1]);
    m.(memory := m.memory[m.memory[m.pointer + 3] := Combine(op, a, b)], pointer := m.pointer + 4)
  }

  /** The loop from state `m`, for at most `fuel` passes. */
  function Execute(m: Machine, input: nat -> int, fuel: nat): Outcome
    decreases fuel, 1
  {
    if Stopped(m) then Finished(m)
    else if fuel == 0 then OutOfFuel
    else if !Defined(m) then Unmodelled
    else Continue(Exec(m, input), input, fuel)
  }

  /** The loop after one more pass, which used one unit of `fuel`. */
  function Continue(m: Machine, input: nat -> int, fuel: nat): Outcome
    requires fuel > 0
    decreases fuel, 0
  {
    Execute(m, input, fuel - 1)
  }

  /** `Run` returns only where the loop ends: at opcode 99 or with the pointer past the memory. */
  lemma {:induction false} FinishedOnlyWhenStopped(m: Machine, input: nat -> int, fuel: nat)
    requires Execute(m, input, fuel).Finished?
    ensures Stopped(Execute(m, input, fuel).final)
    decreases fuel
  {
    if !Stopped(m) {
      FinishedOnlyWhenStopped(Exec(m, input), input, fuel - 1);
    }
  }

  /** A pass never loses memory cells, outputs or input calls already made. */
  lemma StepKeepsHistory(m: Machine, input: nat -> int)
    requires !Stopped(m) && Defined(m)
    ensures |Exec(m, input).memory| == |m.memory|
    ensures Exec(m, input).calls >= m.calls
    ensures m.outputs <= Exec(m, input).outputs
  {
  }

  /** An opcode no branch matches changes no memory and advances the pointer by exactly 1. */
  lemma UnrecognisedOpcode(m: Machine, input: nat -> int)
    requires !Stopped(m) && 0 <= m.pointer
    requires !(1 <= OpCode(m.memory[m.pointer]) <= 8)
    ensures Defined(m)
    ensures Exec(m, input) == m.(pointer := m.pointer + 1)
  {
  }

  /** A negative pointer fetches undefined: the pass only advances the pointer. */
  lemma NegativePointer(m: Machine, input: nat -> int)
    requires m.pointer < 0
    ensures !Stopped(m) && Defined(m)
    ensures Exec(m, input) == m.(pointer := m.pointer + 1)
  {
  }

  /** A taken jump sets the pointer to its target; an untaken one advances it by 3. */
  lemma JumpTarget(m: Machine, input: nat -> int)
    requires !Stopped(m) && Defined(m) && 0 <= m.pointer
    requires OpCode(m.memory[m.pointer]) in {5, 6}
    ensures var modes := Modes(m.memory[m.pointer]);
            var value := Value(m, m.memory[m.pointer + 1], modes[0]);
            Exec(m, input).pointer ==
              if JumpTaken(OpCode(m.memory[m.pointer]), value) then Value(m, m.memory[m.pointer + 2], modes[1])
              else m.pointer + 3
  {
  }

  /**
   * The input callback is called exactly once per input instruction, with
   * the next call number, and its value is stored at the parameter's
   * position; no other instruction calls it.
   */
  lemma InputOncePerInstruction(m: Machine, input: nat -> int)
    requires !Stopped(m) && Defined(m)
    ensures var n := Exec(m, input);
            if m.pointer >= 0 && OpCode(m.memory[m.pointer]) == 3 then
              n.calls == m.calls + 1 && n.memory[m.memory[m.pointer + 1]] == input(m.calls)
            else n.calls == m.calls
  {
  }

  /** `Run([1,0,0,0,99])` returns `[2,0,0,0,99]`. */
  lemma AddsInPlace(input: nat -> int)
    ensures Execute(Loaded([1, 0, 0, 0, 99]), input, 1) == Finished(Machine([2, 0, 0, 0, 99], 4, 0, []))
  {
    var m := Loaded([1, 0, 0, 0, 99]);
    assert OpCode(1) == 1 && Modes(1) == [0, 0, 0];
    assert Exec(m, input) == Machine([2, 0, 0, 0, 99], 4, 0, []);
  }

  /** A pass from a running state leads to the loop from the state it makes, with one unit of fuel less. */
  lemma Passes(m: Machine, next: Machine, input: nat -> int, fuel: nat)
    requires !Stopped(m) && Defined(m) && Exec(m, input) == next && fuel > 0
    ensures Execute(m, input, fuel) == Execute(next, input, fuel - 1)
  {
  }

  /** `[3,9,8,9,10,9,4,9,99,-1,8]` outputs 1 when the input is 8 and 0 otherwise. */
  lemma EqualsEightByPosition(input: nat -> int)
    ensures Execute(Loaded([3, 9, 8, 9, 10, 9, 4, 9, 99, -1, 8]), input, 3).Finished?
    ensures Execute(Loaded([3, 9, 8, 9, 10, 9, 4, 9, 99, -1, 8]), input, 3).final.outputs ==
            [if input(0) == 8 then 1 else 0]
  {
    var v := input(0);
    var flag := if v == 8 then 1 else 0;
    var m0 := Loaded([3, 9, 8, 9, 10, 9, 4, 9, 99, -1, 8]);
    var m1 := Machine([3, 9, 8, 9, 10, 9, 4, 9, 99, v, 8], 2, 1, []);
    var m2 := Machine([3, 9, 8, 9, 10, 9, 4, 9, 99, flag, 8], 6, 1, []);
    var m3 := Machine([3, 9, 8, 9, 10, 9, 4, 9, 99, flag, 8], 8, 1, [flag]);
    PositionRead(input);
    Passes(m0, m1, input, 3);
    PositionCompare(v, input);
    Passes(m1, m2, input, 2);
    PositionWrite(flag, input);
    Passes(m2, m3, input, 1);
    assert Execute(m3, input, 0) == Finished(m3);
  }

  /** The input instruction of `[3,9,8,9,10,9,4,9,99,-1,8]` stores the input at position 9. */
  lemma PositionRead(input: nat -> int)
    ensures !Stopped(Loaded([3, 9, 8, 9, 10, 9, 4, 9, 99, -1, 8])) && Defined(Loaded([3, 9, 8, 9, 10, 9, 4, 9, 99, -1, 8]))
    ensures Exec(Loaded([3, 9, 8, 9, 10, 9, 4, 9, 99, -1, 8]), input) == Machine([3, 9, 8, 9, 10, 9, 4, 9, 99, input(0), 8], 2, 1, [])
  {
    assert OpCode(3) == 3;
  }

  /** Its comparison stores whether position 9 holds 8. */
  lemma PositionCompare(v: int, input: nat -> int)
    ensures !Stopped(Machine([3, 9, 8, 9, 10, 9, 4, 9, 99, v, 8], 2, 1, []))
    ensures Defined(Machine([3, 9, 8, 9, 10, 9, 4, 9, 99, v, 8], 2, 1, []))
    ensures Exec(Machine([3, 9, 8, 9, 10, 9, 4, 9, 99, v, 8], 2, 1, []), input) ==
            Machine([3, 9, 8, 9, 10, 9, 4, 9, 99, if v == 8 then 1 else 0, 8], 6, 1, [])
  {
    assert OpCode(8) == 8 && Modes(8) == [0, 0, 0];
  }

  /** Its output instruction outputs position 9. */
  lemma PositionWrite(flag: int, input: nat -> int)
    ensures !Stopped(Machine([3, 9, 8, 9, 10, 9, 4, 9, 99, flag, 8], 6, 1, []))
    ensures Defined(Machine([3, 9, 8, 9, 10, 9, 4, 9, 99, flag, 8], 6, 1, []))
    ensures Exec(Machine([3, 9, 8, 9, 10, 9, 4, 9, 99, flag, 8], 6, 1, []), input) ==
            Machine([3, 9, 8, 9, 10, 9, 4, 9, 99, flag, 8], 8, 1, [flag])
  {
    assert OpCode(4) == 4 && OpCode(99) == 99;
  }

  /** `[3,3,1108,-1,8,3,4,3,99]` outputs 1 when the input is 8 and 0 otherwise. */
  lemma EqualsEightImmediate(input: nat -> int)
    ensures Execute(Loaded([3, 3, 1108, -1, 8, 3, 4, 3, 99]), input, 3).Finished?
    ensures Execute(Loaded([3, 3, 1108, -1, 8, 3, 4, 3, 99]), input, 3).final.outputs ==
            [if input(0) == 8 then 1 else 0]
  {
    var v := input(0);
    var flag := if v == 8 then 1 else 0;
    var m0 := Loaded([3, 3, 1108, -1, 8, 3, 4, 3, 99]);
    var m1 := Machine([3, 3, 1108, v, 8, 3, 4, 3, 99], 2, 1, []);
    var m2 := Machine([3, 3, 1108, flag, 8, 3, 4, 3, 99], 6, 1, []);
    var m3 := Machine([3, 3, 1108, flag, 8, 3, 4, 3, 99], 8, 1, [flag]);
    ImmediateRead(input);
    Passes(m0, m1, input, 3);
    ImmediateCompare(v, input);
    Passes(m1, m2, input, 2);
    ImmediateWrite(flag, input);
    Passes(m2, m3, input, 1);
    assert Execute(m3, input, 0) == Finished(m3);
  }

  /** The input instruction of `[3,3,1108,-1,8,3,4,3,99]` stores the input over the `-1`. */
  lemma ImmediateRead(input: nat -> int)
    ensures !Stopped(Loaded([3, 3, 1108, -1, 8, 3, 4, 3, 99])) && Defined(Loaded([3, 3, 1108, -1, 8, 3, 4, 3, 99]))
    ensures Exec(Loaded([3, 3, 1108, -1, 8, 3, 4, 3, 99]), input) == Machine([3, 3, 1108, input(0), 8, 3, 4, 3, 99], 2, 1, [])
  {
    assert OpCode(3) == 3;
  }

  /** Its comparison of two immediates stores whether the input is 8 at position 3. */
  lemma ImmediateCompare(v: int, input: nat -> int)
    ensures !Stopped(Machine([3, 3, 1108, v, 8, 3, 4, 3, 99], 2, 1, []))
    ensures Defined(Machine([3, 3, 1108, v, 8, 3, 4, 3, 99], 2, 1, []))
    ensures Exec(Machine([3, 3, 1108, v, 8, 3, 4, 3, 99], 2, 1, []), input) ==
            Machine([3, 3, 1108, if v == 8 then 1 else 0, 8, 3, 4, 3, 99], 6, 1, [])
  {
    assert OpCode(1108) == 8 && Modes(1108) == [1, 1, 0];
  }

  /** Its output instruction outputs position 3. */
  lemma ImmediateWrite(flag: int, input: nat -> int)
    ensures !Stopped(Machine([3, 3, 1108, flag, 8, 3, 4, 3, 99], 6, 1, []))
    ensures Defined(Machine([3, 3, 1108, flag, 8, 3, 4, 3, 99], 6, 1, []))
    ensures Exec(Machine([3, 3, 1108, flag, 8, 3, 4, 3, 99], 6, 1, []), input) ==
            Machine([3, 3, 1108, flag, 8, 3, 4, 3, 99], 8, 1, [flag])
  {
    assert OpCode(4) == 4 && OpCode(99) == 99;
  }

  /** The loop's state with the memory held in an array. */
  function State(memory: array<int>, pointer: int, calls: nat, outputs: seq<int>): Machine
    reads memory
  {
    Machine(memory[..], pointer, calls, outputs)
  }

  /** The body of `Run`'s loop for opcodes 3 and 4. */
  method StepUnary(memory: array<int>, pointer: int, calls: nat, outputs: seq<int>, op: int, input: nat -> int)
    returns (pointer': int, calls': nat, outputs': seq<int>)
    requires op in {3, 4} && 0 <= pointer
    requires InMemory(State(memory, pointer, calls, outputs), pointer + 1)
    requires InMemory(State(memory, pointer, calls, outputs), memory[pointer + 1])
    modifies memory
    ensures State(memory, pointer', calls', outputs') == Unary(old(State(memory, pointer, calls, outputs)), op, input)
  {
    pointer', calls', outputs' := pointer + 1, calls, outputs;
    var parameter1 := memory[pointer'];
    if op == 3 {
      memory[parameter1] := input(calls);
      calls' := calls + 1;
    } else {
      outputs' := outputs + [memory[parameter1]];
    }
    pointer' := pointer' + 1;
  }

  /** The body of `Run`'s loop for opcodes 5 and 6. */
  method StepJump(memory: array<int>, pointer: int, calls: nat, outputs: seq<int>, op: int, instruction: nat)
    returns (pointer': int)
    requires op in {5, 6} && 0 <= pointer
    requires var m := State(memory, pointer, calls, outputs);
             var modes := Modes(instruction);
             InMemory(m, pointer + 2) && Readable(m, memory[pointer + 1], modes[0]) &&
             (JumpTaken(op, Value(m, memory[pointer + 1], modes[0])) ==> Readable(m, memory[pointer + 2], modes[1]))
    ensures State(memory, pointer', calls, outputs) == Jump(State(memory, pointer, calls, outputs), op, Modes(instruction))
  {
    var modeFlags := instruction / 100;
    var parameterMode1 := modeFlags % 10;
    modeFlags := modeFlags / 10;
    var parameterMode2 := modeFlags % 10;
    ShiftHundred(instruction, 0);
    ShiftHundred(instruction, 1);
    assert [parameterMode1, parameterMode2] == Modes(instruction)[..2];
    pointer' := pointer + 1;
    var parameter1 := memory[pointer'];
    pointer' := pointer' + 1;
    var parameter2 := memory[pointer'];
    var value := if parameterMode1 == 1 then parameter1 else memory[parameter1];
    if (op == 5 && value != 0) || (op == 6 && value == 0) {
      pointer' := if parameterMode2 == 1 then parameter2 else memory[parameter2];
      return;
    }
    pointer' := pointer' + 1;
  }

  /** The body of `Run`'s loop for opcodes 1, 2, 7 and 8. */
  method StepTernary(memory: array<int>, pointer: int, calls: nat, outputs: seq<int>, op: int, instruction: nat)
    returns (pointer': int)
    requires op in {1, 2, 7, 8} && 0 <= pointer
    requires var m := State(memory, pointer, calls, outputs);
             var modes := Modes(instruction);
             InMemory(m, pointer + 3) && Readable(m, memory[pointer + 1], modes[0]) &&
             Readable(m, memory[pointer + 2], modes[1]) && InMemory(m, memory[pointer + 3])
    modifies memory
    ensures State(memory, pointer', calls, outputs) == Ternary(old(State(memory, pointer, calls, outputs)), op, Modes(instruction))
  {
    var modeFlags := instruction / 100;
    var parameterMode1 := modeFlags % 10;
    modeFlags := modeFlags / 10;
    var parameterMode2 := modeFlags % 10;
    ShiftHundred(instruction, 0);
    ShiftHundred(instruction, 1);
    assert [parameterMode1, parameterMode2] == Modes(instruction)[..2];
    pointer' := pointer + 1;
    var parameter1 := memory[pointer'];
    pointer' := pointer' + 1;
    var parameter2 := memory[pointer'];
    pointer' := pointer' + 1;
    var parameter3 := memory[pointer'];
    var a := if parameterMode1 == 1 then parameter1 else memory[parameter1];
    var b := if parameterMode2 == 1 then parameter2 else memory[parameter2];
    if op == 1 {
      memory[parameter3] := a + b;
    } else if op == 2 {
      memory[parameter3] := a * b;
    } else if op == 7 {
      memory[parameter3] := if a < b then 1 else 0;
    } else {
      memory[parameter3] := if a == b then 1 else 0;
    }
    pointer' := pointer' + 1;
  }

  /** One pass of `Run`'s loop body on the memory array. */
  method Step(memory: array<int>, pointer: int, calls: nat, outputs: seq<int>, input: nat -> int)
    returns (pointer': int, calls': nat, outputs': seq<int>)
    requires !Stopped(State(memory, pointer, calls, outputs)) && Defined(State(memory, pointer, calls, outputs))
    modifies memory
    ensures State(memory, pointer', calls', outputs') == Exec(old(State(memory, pointer, calls, outputs)), input)
  {
    calls', outputs' := calls, outputs;
    if pointer < 0 {
      pointer' := pointer + 1;
      return;
    }
    var instruction := memory[pointer];
    var opCode := OpCode(instruction);
    if opCode == 3 || opCode == 4 {
      pointer', calls', outputs' := StepUnary(memory, pointer, calls, outputs, opCode, input);
    } else if opCode == 5 || opCode == 6 {
      pointer' := StepJump(memory, pointer, calls, outputs, opCode, instruction);
    } else if opCode == 1 || opCode == 2 || opCode == 7 || opCode == 8 {
      pointer' := StepTernary(memory, pointer, calls, outputs, opCode, instruction);
    } else {
      pointer' := pointer + 1;
    }
  }

  /**
   * `Run(input)`: executes the program on a fresh memory array until opcode
   * 99 or until the pointer reaches the end, for at most `fuel` passes, and
   * returns the memory; `outcome` is the loop's end state.
   */
  method Run(program: seq<int>, input: nat -> int, fuel: nat) returns (memory: array<int>, outcome: Outcome)
    ensures fresh(memory)
    ensures outcome == Execute(Loaded(program), input, fuel)
    ensures outcome.Finished? ==> memory[..] == outcome.final.memory
  {
    memory := new int[|program|](i requires 0 <= i < |program| => program[i]);
    var pointer := 0;
    var calls: nat := 0;
    var outputs: seq<int> := [];
    var left := fuel;
    ghost var target := Execute(Loaded(program), input, fuel);
    assert memory[..] == program;
    while pointer < memory.Length
      invariant Execute(State(memory, pointer, calls, outputs), input, left) == target
      decreases left
    {
      if 0 <= pointer && OpCode(memory[pointer]) == 99 {
        break;
      }
      if left == 0 {
        return memory, OutOfFuel;
      }
      if !Defined(State(memory, pointer, calls, outputs)) {
        return memory, Unmodelled;
      }
      pointer, calls, outputs := Step(memory, pointer, calls, outputs, input);
      left := left - 1;
    }
    outcome := Finished(State(memory, pointer, calls, outputs));
  }
}
