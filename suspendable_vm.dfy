/**
 * The suspendable Intcode machine of AOC19-07.js: a single memory array, no
 * relative base (opcode 9 is rejected), an input instruction that suspends
 * when its read callback has nothing to give, and a halt as soon as the
 * pointer leaves the memory after an instruction that is not a taken jump.
 *
 * Every index the step reads or writes must lie inside the memory array: the
 * source would otherwise read undefined or grow the array, and the model
 * excludes those steps by the precondition `Defined`.
 */
module SuspendableVm {
  import opened Wrappers
  import opened Decoder
  import opened Signals

  datatype Machine = Machine(memory: seq<int>, pointer: int, halted: bool, blocked: bool)

  datatype Transition = Transition(next: Machine, signal: Signal, io: Io)

  /** `load(program)`. */
  function Loaded(program: seq<int>): (m: Machine)
    ensures m.memory == program && m.pointer == 0 && !m.blocked
    ensures m.halted <==> |program| == 0
  {
    Machine(program, 0, |program| == 0, false)
  }

  /** An index inside the memory array. */
  predicate InMemory(m: Machine, index: int) {
    0 <= index < |m.memory|
  }

  /** `_getParameterValue`: mode 1 is immediate, every other mode reads memory by position. */
  function Value(m: Machine, parameter: int, mode: int): int
    requires mode == 1 || InMemory(m, parameter)
  {
    if mode == 1 then parameter else m.memory[parameter]
  }

  /** The parameter resolves to a value without reading outside the memory. */
  predicate Readable(m: Machine, parameter: int, mode: int) {
    mode == 1 || InMemory(m, parameter)
  }

  /** Whether a jump instruction with this opcode jumps on this value. */
  predicate JumpTaken(op: int, value: int) {
    (op == 5 && value != 0) || (op == 6 && value == 0)
  }

  /** The value opcodes 1, 2, 7 and 8 store: sum, product, less-than flag, equality flag. */
  function Combine(op: int, a: int, b: int): int {
    if op == 1 then a + b
    else if op == 2 then a * b
    else if op == 7 then (if a < b then 1 else 0)
    else (if a == b then 1 else 0)
  }

  /** The opcode of the word at a pointer inside the memory. */
  function CurrentOp(m: Machine): int
    requires InMemory(m, m.pointer)
  {
    OpCode(m.memory[m.pointer])
  }

  /**
   * Every index the instruction with this opcode and these modes reads or
   * writes lies inside the memory (its parameters included).
   */
  predicate OperandsDefined(m: Machine, op: int, modes: seq<nat>, input: Option<int>)
    requires InMemory(m, m.pointer) && |modes| == 3
  {
    var p := m.pointer;
    (op == 3 && input.Some? ==> InMemory(m, p + 1) && InMemory(m, m.memory[p + 1])) &&
    (op == 4 ==> InMemory(m, p + 1) && InMemory(m, m.memory[p + 1])) &&
    (op == 5 || op == 6 ==>
       InMemory(m, p + 2) && Readable(m, m.memory[p + 1], modes[0]) &&
       (JumpTaken(op, Value(m, m.memory[p + 1], modes[0])) ==> Readable(m, m.memory[p + 2], modes[1]))) &&
    (op == 1 || op == 2 || op == 7 || op == 8 ==>
       InMemory(m, p + 3) && Readable(m, m.memory[p + 1], modes[0]) &&
       Readable(m, m.memory[p + 2], modes[1]) && InMemory(m, m.memory[p + 3]))
  }

  /** The next step reads and writes only inside the memory. */
  predicate Defined(m: Machine, input: Option<int>) {
    !m.halted && InMemory(m, m.pointer) && m.memory[m.pointer] >= 0 ==>
      OperandsDefined(m, CurrentOp(m), Modes(m.memory[m.pointer]), input)
  }

  /**
   * The generic end of an instruction: the pointer moves on by `length`,
   * and the machine halts, reporting false, once it has left the memory.
   */
  function Advance(m: Machine, length: nat, io: Io): (t: Transition)
    ensures t.next.pointer == m.pointer + length
    ensures t.next.memory == m.memory && t.next.blocked == m.blocked
    ensures t.next.halted <==> m.halted || m.pointer + length >= |m.memory|
    ensures t.signal == (if m.pointer + length >= |m.memory| then CannotContinue else CanContinue)
    ensures t.io == io
  {
    var pointer := m.pointer + length;
    if pointer >= |m.memory| then Transition(m.(pointer := pointer, halted := true), CannotContinue, io)
    else Transition(m.(pointer := pointer), CanContinue, io)
  }

  /**
   * `step()`. `input` is what the read callback would return if called
   * (None for null/undefined); `io` records which callback was called.
   */
  function Exec(m: Machine, input: Option<int>): Transition
    requires Defined(m, input)
  {
    if m.halted then Transition(m, CannotContinue, Silent)
    else if !InMemory(m, m.pointer) then Transition(m, Threw(UnsupportedOpcodeNaN), Silent)
    else
      var instruction := m.memory[m.pointer];
      var op := OpCode(instruction);
      if op == 99 then Transition(m.(halted := true), CannotContinue, Silent)
      else if ParameterCountNoRelative(op).None? then Transition(m, Threw(UnsupportedOpcode(op)), Silent)
      else
        var modes := Modes(instruction);
        if op == 3 || op == 4 then Unary(m, op, input)
        else if op == 5 || op == 6 then Jump(m, op, modes)
        else Ternary(m, op, modes)
  }

  /** Opcodes 3 and 4, which address their parameter by position whatever its mode digit says. */
  function Unary(m: Machine, op: int, input: Option<int>): Transition
    requires InMemory(m, m.pointer) && op in {3, 4}
    requires OperandsDefined(m, op, [0, 0, 0], input)
  {
    if op == 3 then
      match input
      case None => Transition(m.(blocked := true), CannotContinue, Starved)
      case Some(v) =>
        var address := m.memory[m.pointer + 1];
        Advance(m.(blocked := false, memory := m.memory[address := v]), 2, Consumed(v))
    else
      Advance(m, 2, Emitted(m.memory[m.memory[m.pointer + 1]]))
  }

  /** Opcodes 5 and 6: a taken jump sets the pointer and returns true without the end-of-memory check. */
  function Jump(m: Machine, op: int, modes: seq<nat>): Transition
    requires InMemory(m, m.pointer) && |modes| == 3 && op in {5, 6}
    requires OperandsDefined(m, op, modes, None)
  {
    var value := Value(m, m.memory[m.pointer + 1], modes[0]);
    if JumpTaken(op, value) then
      Transition(m.(pointer := Value(m, m.memory[m.pointer + 2], modes[1])), CanContinue, Silent)
    else Advance(m, 3, Silent)
  }

  /** Opcodes 1, 2, 7 and 8: store the combined operands at the third parameter. */
  function Ternary(m: Machine, op: int, modes: seq<nat>): Transition
    requires InMemory(m, m.pointer) && |modes| == 3 && op in {1, 2, 7, 8}
    requires OperandsDefined(m, op, modes, None)
  {
    var a := Value(m, m.memory[m.pointer + 1], modes[0]);
    var b := Value(m, m.memory[m.pointer + 2], modes[1]);
    Advance(m.(memory := m.memory[m.memory[m.pointer + 3] := Combine(op, a, b)]), 4, Silent)
  }

  /** A halted machine does nothing: `step` returns false and no field changes. */
  lemma HaltedStepIsInert(m: Machine, input: Option<int>)
    requires m.halted
    ensures Defined(m, input)
    ensures Exec(m, input) == Transition(m, CannotContinue, Silent)
  {
  }

  /**
   * A pointer outside the memory fetches undefined, whose opcode is NaN:
   * the step throws and changes nothing.
   */
  lemma FetchOutsideMemoryThrows(m: Machine, input: Option<int>)
    requires !m.halted && !InMemory(m, m.pointer)
    ensures Defined(m, input)
    ensures Exec(m, input) == Transition(m, Threw(UnsupportedOpcodeNaN), Silent)
  {
  }

  /**
   * This generation has no relative base: opcode 9, like every opcode
   * outside 1 to 8 and 99, throws and changes nothing.
   */
  lemma UnsupportedOpcodeThrows(m: Machine, input: Option<int>)
    requires !m.halted && InMemory(m, m.pointer)
    requires !(1 <= CurrentOp(m) <= 8 || CurrentOp(m) == 99)
    ensures Defined(m, input)
    ensures Exec(m, input) == Transition(m, Threw(UnsupportedOpcode(CurrentOp(m))), Silent)
  {
    if m.memory[m.pointer] >= 0 {
      assert ParameterCountNoRelative(CurrentOp(m)).None?;
    }
  }

  /** Opcode 99 sets `halted`, returns false and leaves the pointer on the halt instruction. */
  lemma HaltInstruction(m: Machine, input: Option<int>)
    requires !m.halted && InMemory(m, m.pointer) && CurrentOp(m) == 99
    ensures Defined(m, input)
    ensures Exec(m, input) == Transition(m.(halted := true), CannotContinue, Silent)
  {
  }

  /**
   * An input instruction whose callback gives nothing leaves the pointer on
   * the instruction, sets `blocked` and writes no memory; the retry that
   * finds a value executes the same instruction as if it had never blocked.
   */
  lemma BlockAndRetry(m: Machine, v: int)
    requires !m.halted && InMemory(m, m.pointer) && CurrentOp(m) == 3
    requires Defined(m, Some(v))
    ensures Defined(m, None)
    ensures Exec(m, None) == Transition(m.(blocked := true), CannotContinue, Starved)
    ensures Defined(m.(blocked := true), Some(v))
    ensures Exec(m.(blocked := true), Some(v)) == Exec(m, Some(v))
    ensures Exec(m, Some(v)).io == Consumed(v) && !Exec(m, Some(v)).next.blocked
  {
  }

  /**
   * Input and output ignore their mode digit: opcode 3 stores its value at
   * the index its parameter holds, and opcode 4 emits the cell at that index.
   */
  lemma IoAddressesByPosition(m: Machine, input: Option<int>)
    requires Defined(m, input)
    requires !m.halted && InMemory(m, m.pointer) && CurrentOp(m) in {3, 4}
    requires CurrentOp(m) == 3 ==> input.Some?
    ensures InMemory(m, m.pointer + 1) && InMemory(m, m.memory[m.pointer + 1])
    ensures CurrentOp(m) == 3 ==>
              Exec(m, input).next.memory == m.memory[m.memory[m.pointer + 1] := input.value]
    ensures CurrentOp(m) == 4 ==>
              Exec(m, input).next.memory == m.memory &&
              Exec(m, input).io == Emitted(m.memory[m.memory[m.pointer + 1]])
  {
  }

  /**
   * After an instruction that is not a taken jump, the pointer moves past
   * the instruction, and the step halts and returns false exactly when the
   * pointer has left the memory.
   */
  lemma EndOfMemoryHalts(m: Machine, input: Option<int>)
    requires Defined(m, input)
    requires !m.halted && InMemory(m, m.pointer) && CurrentOp(m) in {1, 2, 3, 4, 5, 6, 7, 8}
    requires CurrentOp(m) == 3 ==> input.Some?
    requires CurrentOp(m) in {5, 6} ==> !JumpTaken(CurrentOp(m), Value(m, m.memory[m.pointer + 1], Modes(m.memory[m.pointer])[0]))
    ensures var t := Exec(m, input);
            t.next.pointer == m.pointer + 1 + ParameterCountNoRelative(CurrentOp(m)).value &&
            (t.next.halted <==> t.next.pointer >= |m.memory|) &&
            (t.signal == CannotContinue <==> t.next.halted)
  {
  }

  /**
   * A taken jump sets the pointer to its target and returns true, even when
   * the target lies outside the memory; jumps read an operand in mode 1 as
   * the value itself.
   */
  lemma TakenJump(m: Machine)
    requires Defined(m, None)
    requires !m.halted && InMemory(m, m.pointer) && CurrentOp(m) in {5, 6}
    ensures m.memory[m.pointer] >= 0 && InMemory(m, m.pointer + 2)
    ensures var modes := Modes(m.memory[m.pointer]);
            var value := Value(m, m.memory[m.pointer + 1], modes[0]);
            (modes[0] == 1 ==> value == m.memory[m.pointer + 1]) &&
            (JumpTaken(CurrentOp(m), value) ==>
               Exec(m, None) == Transition(m.(pointer := Value(m, m.memory[m.pointer + 2], modes[1])), CanContinue, Silent))
  {
  }

  /** `getValueAt(address)`: the cell, or undefined outside the memory. */
  function GetValueAt(m: Machine, address: int): (v: Option<int>)
    ensures v.Some? <==> 0 <= address < |m.memory|
    ensures v.Some? ==> v.value == m.memory[address]
  {
    if address < 0 || address >= |m.memory| then None else Some(m.memory[address])
  }

  /** How a run of `while (this.step());` ends. */
  datatype Finish =
    | Returned(machine: Machine, unread: seq<int>, outputs: seq<int>) // `step` returned false
    | Raised(fault: Fault)  // `step` threw
    | Unmodelled            // the next step would read or write outside the memory
    | OutOfFuel             // the step budget ran out

  /** The values a transition writes to the output callback. */
  function Written(io: Io): seq<int> {
    if io.Emitted? then [io.value] else []
  }

  /** The input queue after a transition: the callback took its head when it gave a value. */
  function Remaining(io: Io, inputs: seq<int>): seq<int> {
    if io.Consumed? && inputs != [] then inputs[1..] else inputs
  }

  /** What a queue-backed read callback gives: its head, or nothing when it is empty. */
  function Head(inputs: seq<int>): Option<int> {
    if inputs == [] then None else Some(inputs[0])
  }

  /** The read callback's answer is used as given: a value is consumed, and nothing means starved. */
  lemma InputUse(m: Machine, input: Option<int>)
    requires Defined(m, input)
    ensures var io := Exec(m, input).io;
            (io.Consumed? ==> input == Some(io.value)) && (io.Starved? ==> input == None)
  {
  }

  /** A finished run, with earlier outputs put in front of its own. */
  function After(outputs: seq<int>, f: Finish): Finish {
    if f.Returned? then f.(outputs := outputs + f.outputs) else f
  }

  /**
   * `while (this.step());` with a read callback that hands out `inputs` in
   * order and then nothing, for at most `fuel` steps.
   */
  function Drive(m: Machine, inputs: seq<int>, fuel: nat): Finish
    decreases fuel, 0
  {
    if fuel == 0 then OutOfFuel else DriveStep(m, inputs, fuel - 1)
  }

  /** One step of `Drive` with `rest` steps left after it. */
  function DriveStep(m: Machine, inputs: seq<int>, rest: nat): Finish
    decreases rest, 1
  {
    if !Defined(m, Head(inputs)) then Unmodelled
    else
      var t := Exec(m, Head(inputs));
      match t.signal
      case Threw(f) => Raised(f)
      case CannotContinue => Returned(t.next, Remaining(t.io, inputs), Written(t.io))
      case CanContinue => After(Written(t.io), Drive(t.next, Remaining(t.io, inputs), rest))
  }

  /** Earlier outputs put in front twice are put in front once, in order. */
  lemma AfterAfter(a: seq<int>, b: seq<int>, f: Finish)
    ensures After(a, After(b, f)) == After(a + b, f)
  {
    if f.Returned? {
      assert a + (b + f.outputs) == (a + b) + f.outputs;
    }
  }

  /**
   * One step of a run under way: `outputs` were written so far and the rest
   * of the run is `Drive` from `m`; after transition `t` the run has either
   * ended or goes on from `t.next`.
   */
  lemma DriveAdvance(target: Finish, outputs: seq<int>, m: Machine, inputs: seq<int>, fuel: nat, t: Transition)
    requires After(outputs, Drive(m, inputs, fuel)) == target
    requires fuel > 0 && Defined(m, Head(inputs)) && t == Exec(m, Head(inputs))
    ensures t.signal.Threw? ==> target == Raised(t.signal.fault)
    ensures t.signal.CannotContinue? ==>
              target == Returned(t.next, Remaining(t.io, inputs), outputs + Written(t.io))
    ensures t.signal.CanContinue? ==>
              target == After(outputs + Written(t.io), Drive(t.next, Remaining(t.io, inputs), fuel - 1))
  {
    assert Drive(m, inputs, fuel) == DriveStep(m, inputs, fuel - 1);
    if t.signal.CanContinue? {
      AfterAfter(outputs, Written(t.io), Drive(t.next, Remaining(t.io, inputs), fuel - 1));
    }
  }

  /**
   * `IntCodeComputer` of AOC19-07.js. The read and write callbacks are not
   * stored: `Step` is given what the read callback would return and reports
   * through `io` which callback it called.
   */
  class IntCodeComputer {
    var memory: seq<int>
    var pointer: int
    var halted: bool
    var blocked: bool

    /** The fields as a machine state. */
    function State(): Machine
      reads this
    {
      Machine(memory, pointer, halted, blocked)
    }

    /** A new computer is halted until a program is loaded. */
    constructor ()
      ensures State() == Machine([], 0, true, false)
    {
      memory, pointer, halted, blocked := [], 0, true, false;
    }

    /** `load(program)`. */
    method Load(program: seq<int>)
      modifies this
      ensures State() == Loaded(program)
    {
      memory := program;
      halted := |memory| == 0;
      pointer := 0;
      blocked := false;
    }

    /** `isRunning()`. */
    function IsRunning(): (running: bool)
      reads this
      ensures running <==> !State().halted
    {
      !halted
    }

    /** `getValueAt(address)`. */
    function GetValue(address: int): (v: Option<int>)
      reads this
      ensures v == GetValueAt(State(), address)
    {
      if address < 0 || address >= |memory| then None else Some(memory[address])
    }

    /**
     * `_getParameterModes(value)`: the three low decimal digits of `value`
     * (the instruction word divided by 100), least significant first.
     */
    method GetParameterModes(value: int) returns (modes: seq<int>)
      requires value >= 0
      ensures |modes| == 3
      ensures forall k :: 0 <= k < 3 ==> modes[k] == Digit(value, k)
    {
      modes := [];
      var rest := value;
      var i := 0;
      while i < 3
        invariant 0 <= i <= 3 && |modes| == i
        invariant rest == Shift(value, i)
        invariant forall k :: 0 <= k < i ==> modes[k] == Digit(value, k)
      {
        modes := modes + [rest % 10];
        rest := rest / 10;
        i := i + 1;
      }
    }

    /** `_getParameterValue(parameter, mode)` on the current memory. */
    function GetParameterValue(parameter: int, mode: int): (v: int)
      reads this
      requires Readable(State(), parameter, mode)
      ensures v == Value(State(), parameter, mode)
    {
      if mode == 1 then parameter else memory[parameter]
    }

    /** The end of `step()` after the pointer has reached the instruction's last parameter. */
    method Finish(io: Io) returns (signal: Signal)
      modifies this
      ensures Transition(State(), signal, io) == Advance(old(State()), 1, io)
    {
      pointer := pointer + 1;
      if pointer >= |memory| {
        halted := true;
        return CannotContinue;
      }
      return CanContinue;
    }

    /**
     * `step()`. `input` is what the read callback would return if called;
     * the new state, the result and the callback used are those of `Exec`.
     */
    method Step(input: Option<int>) returns (signal: Signal, io: Io)
      requires Defined(State(), input)
      modifies this
      ensures Exec(old(State()), input) == Transition(State(), signal, io)
    {
      io := Silent;
      if halted {
        return CannotContinue, io;
      }
      if pointer < 0 || pointer >= |memory| {
        return Threw(UnsupportedOpcodeNaN), io;
      }
      var instruction := memory[pointer];
      var opCode := OpCode(instruction);
      if opCode == 99 {
        halted := true;
        return CannotContinue, io;
      }
      var parameterCount := ParameterCountNoRelative(opCode);
      if parameterCount.None? {
        return Threw(UnsupportedOpcode(opCode)), io;
      }
      var modes := GetParameterModes(instruction / 100);
      forall k | 0 <= k < 3
        ensures modes[k] == Modes(instruction)[k]
      {
        ShiftHundred(instruction, k);
      }
      assert modes == Modes(instruction);
      if parameterCount.value == 1 {
        signal, io := StepUnary(opCode, input);
      } else if parameterCount.value == 2 {
        signal, io := StepJump(opCode, modes);
      } else {
        signal, io := StepTernary(opCode, modes);
      }
    }

    /** The unary branch of `step()`: opcodes 3 and 4. */
    method StepUnary(opCode: int, input: Option<int>) returns (signal: Signal, io: Io)
      requires InMemory(State(), pointer) && opCode in {3, 4}
      requires OperandsDefined(State(), opCode, [0, 0, 0], input)
      modifies this
      ensures Unary(old(State()), opCode, input) == Transition(State(), signal, io)
    {
      var startingPoint := pointer;
      io := Silent;
      pointer := pointer + 1;
      if opCode == 3 {
        var value := input;
        if value.None? {
          pointer := startingPoint;
          blocked := true;
          return CannotContinue, Starved;
        }
        var parameter1 := memory[pointer];
        blocked := false;
        memory := memory[parameter1 := value.value];
        io := Consumed(value.value);
      } else {
        var parameter1 := memory[pointer];
        io := Emitted(memory[parameter1]);
      }
      signal := Finish(io);
    }

    /** The binary branch of `step()`: the jumps, which return early when taken. */
    method StepJump(opCode: int, modes: seq<nat>) returns (signal: Signal, io: Io)
      requires InMemory(State(), pointer) && |modes| == 3 && opCode in {5, 6}
      requires OperandsDefined(State(), opCode, modes, None)
      modifies this
      ensures Jump(old(State()), opCode, modes) == Transition(State(), signal, io)
    {
      io := Silent;
      var parameter1 := memory[pointer + 1];
      var parameter2 := memory[pointer + 2];
      pointer := pointer + 2;
      var value := GetParameterValue(parameter1, modes[0]);
      if (opCode == 5 && value != 0) || (opCode == 6 && value == 0) {
        var jumpTo := GetParameterValue(parameter2, modes[1]);
        pointer := jumpTo;
        return CanContinue, io;
      }
      signal := Finish(io);
    }

    /** The ternary branch of `step()`: opcodes 1, 2, 7 and 8. */
    method StepTernary(opCode: int, modes: seq<nat>) returns (signal: Signal, io: Io)
      requires InMemory(State(), pointer) && |modes| == 3 && opCode in {1, 2, 7, 8}
      requires OperandsDefined(State(), opCode, modes, None)
      modifies this
      ensures Ternary(old(State()), opCode, modes) == Transition(State(), signal, io)
    {
      io := Silent;
      var parameter1 := memory[pointer + 1];
      var parameter2 := memory[pointer + 2];
      var parameter3 := memory[pointer + 3];
      pointer := pointer + 3;
      var a := GetParameterValue(parameter1, modes[0]);
      var b := GetParameterValue(parameter2, modes[1]);
      var result;
      if opCode == 1 {
        result := a + b;
      } else if opCode == 2 {
        result := a * b;
      } else if opCode == 7 {
        result := if a < b then 1 else 0;
      } else {
        result := if a == b then 1 else 0;
      }
      memory := memory[parameter3 := result];
      signal := Finish(io);
    }

    /**
     * One step of a run under way: `outputs` were written so far and the
     * rest of the run is `Drive` from the current state over `queue`.
     */
    method Pump(ghost target: Finish, queue: seq<int>, outputs: seq<int>, left: nat)
      returns (signal: Signal, rest: seq<int>, written: seq<int>)
      requires left > 0 && Defined(State(), Head(queue))
      requires After(outputs, Drive(State(), queue, left)) == target
      modifies this
      ensures signal.Threw? ==> target == Raised(signal.fault)
      ensures signal.CannotContinue? ==> target == Returned(State(), rest, written)
      ensures signal.CanContinue? ==> After(written, Drive(State(), rest, left - 1)) == target
    {
      ghost var m := State();
      var io;
      signal, io := Step(Head(queue));
      DriveAdvance(target, outputs, m, queue, left, Transition(State(), signal, io));
      rest := Remaining(io, queue);
      written := outputs + Written(io);
    }

    /**
     * `run(program)`: loads the program and steps until `step` returns false,
     * with a read callback that hands out `inputs` in order and then nothing;
     * returns whether the machine halted. `fuel` bounds the number of steps.
     */
    method Run(program: seq<int>, inputs: seq<int>, fuel: nat) returns (completed: bool, finish: Finish)
      modifies this
      ensures finish == Drive(Loaded(program), inputs, fuel)
      ensures finish.Returned? ==> State() == finish.machine
      ensures completed <==> finish.Returned? && finish.machine.halted
    {
      Load(program);
      var queue := inputs;
      var outputs: seq<int> := [];
      var left := fuel;
      ghost var target := Drive(Loaded(program), inputs, fuel);
      var end: Option<Finish> := None;
      while left > 0 && end.None?
        invariant end.None? ==> After(outputs, Drive(State(), queue, left)) == target
        invariant end.Some? ==> end.value == target && (target.Returned? ==> State() == target.machine)
        decreases left
      {
        if !Defined(State(), Head(queue)) {
          end := Some(Unmodelled);
        } else {
          var signal;
          signal, queue, outputs := Pump(target, queue, outputs, left);
          if signal.Threw? {
            end := Some(Raised(signal.fault));
          } else if signal.CannotContinue? {
            end := Some(Returned(State(), queue, outputs));
          }
        }
        left := left - 1;
      }
      finish := if end.Some? then end.value else OutOfFuel;
      completed := finish.Returned? && !IsRunning();
    }
  }
}
