/**
 * The extended Intcode machine (AOC19-13.js, identical in AOC19-11.js): a dense
 * memory holding the program, a sparse overflow store that reads as 0 until
 * written, a relative-base register moved by opcode 9 and used by mode 2, and
 * an input instruction that suspends the machine when its read callback has
 * nothing to give.
 *
 * `Exec` is the machine's transition as a function of its state and of the
 * value the read callback would return; the class `IntCodeComputer` is the
 * source's object, whose `Step` is proved to perform exactly `Exec`.
 */
module ExtendedVm {
  import opened Wrappers
  import opened Decoder
  import opened Signals

  datatype Machine = Machine(
    memory: seq<int>,       // the loaded program, updated in place
    extended: map<int, int>, // cells at or beyond |memory| that were written
    pointer: int,
    relativeBase: int,
    halted: bool,
    blocked: bool)

  datatype Transition = Transition(next: Machine, signal: Signal, io: Io)

  /** `load(program)`. */
  function Loaded(program: seq<int>): (m: Machine)
    ensures m.memory == program && m.extended == map[]
    ensures m.pointer == 0 && m.relativeBase == 0 && !m.blocked
    ensures m.halted <==> |program| == 0
  {
    Machine(program, map[], 0, 0, |program| == 0, false)
  }

  /** `_address`: mode 2 offsets the parameter by the relative base, every other mode leaves it. */
  function Address(m: Machine, parameter: int, mode: int): int {
    if mode == 2 then parameter + m.relativeBase else parameter
  }

  /** The value stored at a non-negative address. */
  function Cell(m: Machine, address: nat): int {
    if address < |m.memory| then m.memory[address]
    else if address in m.extended then m.extended[address]
    else 0
  }

  /** The parameter resolves to a value without touching a negative address. */
  predicate Resolvable(m: Machine, parameter: int, mode: int) {
    mode == 1 || Address(m, parameter, mode) >= 0
  }

  /**
   * `_read`: mode 1 gives the parameter itself; any other mode reads the
   * resolved address, from the dense memory below its length and from the
   * overflow store beyond it, where an address never written reads as 0.
   */
  function Read(m: Machine, parameter: int, mode: int): (v: int)
    requires Resolvable(m, parameter, mode)
    ensures mode == 1 ==> v == parameter
    ensures mode != 1 && Address(m, parameter, mode) >= |m.memory| && Address(m, parameter, mode) !in m.extended ==> v == 0
  {
    if mode == 1 then parameter else Cell(m, Address(m, parameter, mode))
  }

  /**
   * `_write`: stores the value at the resolved address, in the dense memory
   * below its length and in the overflow store beyond it. The mode goes
   * through `_address` only, so an immediate-mode destination is written as a
   * position. The memory keeps its length and every other address its value.
   */
  function Write(m: Machine, parameter: int, mode: int, value: int): (m': Machine)
    requires Address(m, parameter, mode) >= 0
    ensures |m'.memory| == |m.memory|
    ensures Cell(m', Address(m, parameter, mode)) == value
    ensures forall a: nat {:trigger Cell(m', a)} :: a != Address(m, parameter, mode) ==> Cell(m', a) == Cell(m, a)
    ensures m'.pointer == m.pointer && m'.relativeBase == m.relativeBase
    ensures m'.halted == m.halted && m'.blocked == m.blocked
  {
    var address := Address(m, parameter, mode);
    if address < |m.memory| then m.(memory := m.memory[address := value])
    else m.(extended := m.extended[address := value])
  }

  /** Where the pointer stands does not affect a write. */
  lemma WriteIgnoresPointer(m: Machine, p: int, parameter: int, mode: int, value: int)
    requires Address(m, parameter, mode) >= 0
    ensures Write(m.(pointer := p), parameter, mode, value) == Write(m, parameter, mode, value).(pointer := p)
  {
  }

  /** Reading back a cell just written through a position or relative parameter gives the value written. */
  lemma ReadAfterWrite(m: Machine, parameter: int, mode: int, value: int, other: int)
    requires mode != 1 && Address(m, parameter, mode) >= 0
    ensures Read(Write(m, parameter, mode, value), parameter, mode) == value
    ensures Resolvable(m, other, mode) && Address(m, other, mode) != Address(m, parameter, mode) ==>
              Read(Write(m, parameter, mode, value), other, mode) == Read(m, other, mode)
  {
  }

  /** The raw word k places after the instruction pointer. */
  function Param(m: Machine, k: nat): int
    requires m.pointer >= 0
  {
    Cell(m, m.pointer + k)
  }

  /** The opcode of the instruction at a non-negative pointer. */
  function CurrentOp(m: Machine): int
    requires m.pointer >= 0
  {
    OpCode(Cell(m, m.pointer))
  }

  /**
   * Every address the instruction with this opcode and these modes resolves
   * is non-negative. The source never checks this; a negative address would
   * read JavaScript's undefined.
   */
  predicate OperandsAddressable(m: Machine, op: int, modes: seq<nat>, input: Option<int>)
    requires m.pointer >= 0 && |modes| == 3
  {
    (op == 3 && input.Some? ==> Address(m, Param(m, 1), modes[0]) >= 0) &&
    (op == 4 || op == 9 ==> Resolvable(m, Param(m, 1), modes[0])) &&
    (op == 5 || op == 6 ==> Resolvable(m, Param(m, 1), modes[0]) && Resolvable(m, Param(m, 2), modes[1])) &&
    (op == 1 || op == 2 || op == 7 || op == 8 ==>
       Resolvable(m, Param(m, 1), modes[0]) && Resolvable(m, Param(m, 2), modes[1]) &&
       Address(m, Param(m, 3), modes[2]) >= 0)
  }

  /** Every address the next step resolves is non-negative. */
  predicate Addressable(m: Machine, input: Option<int>) {
    !m.halted && m.pointer >= 0 && Cell(m, m.pointer) >= 0 ==>
      OperandsAddressable(m, CurrentOp(m), Modes(Cell(m, m.pointer)), input)
  }

  /** Whether a jump instruction with this opcode jumps on this value. */
  predicate JumpTaken(op: int, value: int) {
    (op == 5 && value != 0) || (op == 6 && value == 0)
  }

  /** The value opcodes 1, 2, 7 and 8 store: sum, product, less-than flag, equality flag. */
  function Combine(op: int, a: int, b: int): int {
    if op == 1 then a + b
    else if op == 2 then a * b
    else if op == 7 then (if a < b then 1 else 0)
    else (if a == b then 1 else 0)
  }

  /**
   * `step()`: executes the instruction at the pointer. `input` is what the
   * read callback would return if it were called (None for null/undefined);
   * the callback is called only by opcode 3, as `io` records.
   */
  function Exec(m: Machine, input: Option<int>): (t: Transition)
    requires Addressable(m, input)
  {
    if m.halted then Transition(m, CannotContinue, Silent)
    else if m.pointer < 0 then Transition(m, Threw(UnsupportedOpcodeNaN), Silent)
    else
      var instruction := Cell(m, m.pointer);
      var op := OpCode(instruction);
      if op == 99 then Transition(m.(halted := true), CannotContinue, Silent)
      else if ParameterCount(op).None? then Transition(m, Threw(UnsupportedOpcode(op)), Silent)
      else
        Execute(m, op, Modes(instruction), input)
  }

  /** The machine has fetched a supported opcode other than 99, with these modes. */
  predicate Fetched(m: Machine, op: int, modes: seq<nat>) {
    !m.halted && m.pointer >= 0 && Cell(m, m.pointer) >= 0 &&
    op == CurrentOp(m) && op != 99 && ParameterCount(op).Some? && modes == Modes(Cell(m, m.pointer))
  }

  /** Executes a fetched instruction, by the number of its parameters. */
  function Execute(m: Machine, op: int, modes: seq<nat>, input: Option<int>): Transition
    requires Fetched(m, op, modes) && Addressable(m, input)
  {
    if op == 3 || op == 4 || op == 9 then Unary(m, op, modes, input)
    else if op == 5 || op == 6 then Jump(m, op, modes)
    else Ternary(m, op, modes)
  }

  /** Opcodes 3 (input), 4 (output) and 9 (adjust the relative base). */
  function Unary(m: Machine, op: int, modes: seq<nat>, input: Option<int>): Transition
    requires m.pointer >= 0 && |modes| == 3 && OperandsAddressable(m, op, modes, input) && op in {3, 4, 9}
  {
    if op == 3 then
      match input
      case None => Transition(m.(blocked := true), CannotContinue, Starved)
      case Some(v) =>
        Transition(Write(m.(blocked := false), Param(m, 1), modes[0], v).(pointer := m.pointer + 2), CanContinue, Consumed(v))
    else if op == 4 then
      Transition(m.(pointer := m.pointer + 2), CanContinue, Emitted(Read(m, Param(m, 1), modes[0])))
    else
      Transition(m.(relativeBase := m.relativeBase + Read(m, Param(m, 1), modes[0]), pointer := m.pointer + 2), CanContinue, Silent)
  }

  /** Opcodes 5 (jump-if-true) and 6 (jump-if-false). */
  function Jump(m: Machine, op: int, modes: seq<nat>): Transition
    requires m.pointer >= 0 && |modes| == 3 && OperandsAddressable(m, op, modes, None) && op in {5, 6}
  {
    var value := Read(m, Param(m, 1), modes[0]);
    var jumpTo := Read(m, Param(m, 2), modes[1]);
    if JumpTaken(op, value) then Transition(m.(pointer := jumpTo), CanContinue, Silent)
    else Transition(m.(pointer := m.pointer + 3), CanContinue, Silent)
  }

  /** Opcodes 1 (add), 2 (multiply), 7 (less than) and 8 (equals). */
  function Ternary(m: Machine, op: int, modes: seq<nat>): Transition
    requires m.pointer >= 0 && |modes| == 3 && OperandsAddressable(m, op, modes, None) && op in {1, 2, 7, 8}
  {
    var result := Combine(op, Read(m, Param(m, 1), modes[0]), Read(m, Param(m, 2), modes[1]));
    Transition(Write(m, Param(m, 3), modes[2], result).(pointer := m.pointer + 4), CanContinue, Silent)
  }

  /** A halted machine does nothing: `step` returns false and no field changes. */
  lemma HaltedStepIsInert(m: Machine, input: Option<int>)
    requires m.halted
    ensures Addressable(m, input)
    ensures Exec(m, input) == Transition(m, CannotContinue, Silent)
  {
  }

  /**
   * Opcode 99 sets `halted`, returns false and leaves the pointer on the halt
   * instruction; the machine is then no longer running, so a further step is inert.
   */
  lemma HaltInstruction(m: Machine, input: Option<int>, later: Option<int>)
    requires !m.halted && m.pointer >= 0 && CurrentOp(m) == 99
    ensures Addressable(m, input)
    ensures Exec(m, input) == Transition(m.(halted := true), CannotContinue, Silent)
    ensures Exec(m, input).next.pointer == m.pointer
    ensures Addressable(Exec(m, input).next, later)
    ensures Exec(Exec(m, input).next, later) == Transition(m.(halted := true), CannotContinue, Silent)
  {
  }

  /**
   * An input instruction whose callback gives nothing leaves the pointer on
   * the instruction, sets `blocked`, returns false and writes no memory.
   * Blocking again changes nothing more, and the retry that finds a value
   * executes the same instruction as if it had never blocked.
   */
  lemma BlockAndRetry(m: Machine, v: int)
    requires !m.halted && m.pointer >= 0 && CurrentOp(m) == 3
    requires Addressable(m, Some(v))
    ensures Addressable(m, None)
    ensures Exec(m, None) == Transition(m.(blocked := true), CannotContinue, Starved)
    ensures Addressable(m.(blocked := true), None)
    ensures Exec(m.(blocked := true), None) == Exec(m, None)
    ensures Addressable(m.(blocked := true), Some(v))
    ensures Exec(m.(blocked := true), Some(v)) == Exec(m, Some(v))
    ensures Exec(m, Some(v)).signal == CanContinue && !Exec(m, Some(v)).next.blocked
  {
  }

  /**
   * After an instruction that is not a jump, the pointer moves past the
   * instruction: one word for the opcode and one per parameter.
   */
  lemma PointerAdvance(m: Machine, input: Option<int>)
    requires Addressable(m, input)
    requires !m.halted && m.pointer >= 0
    requires CurrentOp(m) in {1, 2, 3, 4, 7, 8, 9}
    requires CurrentOp(m) == 3 ==> input.Some?
    ensures Exec(m, input).signal == CanContinue
    ensures Exec(m, input).next.pointer == m.pointer + 1 + ParameterCount(CurrentOp(m)).value
  {
  }

  /**
   * A jump sets the pointer to its resolved target exactly when it is taken,
   * and otherwise moves past its two parameters.
   */
  lemma JumpTarget(m: Machine, input: Option<int>)
    requires Addressable(m, input)
    requires !m.halted && m.pointer >= 0 && CurrentOp(m) in {5, 6}
    ensures Cell(m, m.pointer) >= 0
    ensures var modes := Modes(Cell(m, m.pointer));
            var value := Read(m, Param(m, 1), modes[0]);
            Exec(m, input).signal == CanContinue &&
            Exec(m, input).next.pointer ==
              if JumpTaken(CurrentOp(m), value) then Read(m, Param(m, 2), modes[1]) else m.pointer + 3
  {
  }

  /**
   * Opcodes 7 and 8 store exactly 1 or 0 at their destination: 1 when the
   * first operand is less than (7) or equal to (8) the second.
   */
  lemma CompareStoresFlag(m: Machine, input: Option<int>)
    requires Addressable(m, input)
    requires !m.halted && m.pointer >= 0 && CurrentOp(m) in {7, 8}
    ensures Cell(m, m.pointer) >= 0
    ensures var modes := Modes(Cell(m, m.pointer));
            var a := Read(m, Param(m, 1), modes[0]);
            var b := Read(m, Param(m, 2), modes[1]);
            var flag := Cell(Exec(m, input).next, Address(m, Param(m, 3), modes[2]));
            (flag == 0 || flag == 1) &&
            (flag == 1 <==> (if CurrentOp(m) == 7 then a < b else a == b))
  {
  }

  /**
   * Opcode 9 adds its resolved operand to the relative base and changes no
   * memory; mode 2 reads and writes then target parameter + relative base.
   */
  lemma AdjustRelativeBase(m: Machine, input: Option<int>, parameter: int, value: int)
    requires Addressable(m, input)
    requires !m.halted && m.pointer >= 0 && CurrentOp(m) == 9
    ensures Cell(m, m.pointer) >= 0
    ensures var t := Exec(m, input);
            t.next.relativeBase == m.relativeBase + Read(m, Param(m, 1), Modes(Cell(m, m.pointer))[0]) &&
            t.next.memory == m.memory && t.next.extended == m.extended
    ensures var n := Exec(m, input).next;
            parameter + n.relativeBase >= 0 ==>
              Read(n, parameter, 2) == Cell(n, parameter + n.relativeBase) &&
              Cell(Write(n, parameter, 2, value), parameter + n.relativeBase) == value
  {
  }

  /** The instruction at the pointer is an input instruction, the only one that calls the read callback. */
  predicate AwaitsInput(m: Machine) {
    !m.halted && m.pointer >= 0 && CurrentOp(m) == 3
  }

  /**
   * The read callback's answer matters only to an input instruction: any
   * other step is the same whatever the callback would give, and calls
   * neither callback for input; an input instruction given a value consumes it.
   */
  lemma CallbackOnlyOnInput(m: Machine, input: Option<int>)
    requires Addressable(m, input)
    ensures !AwaitsInput(m) ==> Addressable(m, None) && Exec(m, input) == Exec(m, None)
    ensures !AwaitsInput(m) ==> !Exec(m, input).io.Consumed? && !Exec(m, input).io.Starved?
    ensures AwaitsInput(m) && input.Some? ==> Exec(m, input).io == Consumed(input.value)
  {
    if !m.halted && m.pointer >= 0 && Cell(m, m.pointer) >= 0 {
      var op := CurrentOp(m);
      if op != 99 && ParameterCount(op).Some? {
        assert Exec(m, input) == Execute(m, op, Modes(Cell(m, m.pointer)), input);
      }
    }
  }

  /**
   * An input instruction whose callback gives nothing blocks, and the blocked
   * machine is still at the same input instruction.
   */
  lemma StarvedInputBlocks(m: Machine)
    requires AwaitsInput(m)
    ensures Addressable(m, None)
    ensures Exec(m, None) == Transition(m.(blocked := true), CannotContinue, Starved)
    ensures AwaitsInput(m.(blocked := true))
  {
  }

  /** How a run driven by `run()` ends. */
  datatype Finish =
    | Returned(machine: Machine, unread: seq<int>, outputs: seq<int>) // `step` returned false
    | Raised(fault: Fault)  // `step` threw
    | Unmodelled            // the next step would resolve a negative address
    | OutOfFuel             // the step budget ran out

  /** The values a transition writes to the output callback. */
  function Written(io: Io): seq<int> {
    if io.Emitted? then [io.value] else []
  }

  /** The input queue after a transition: the callback took its head when it gave a value. */
  function Remaining(io: Io, inputs: seq<int>): seq<int> {
    if io.Consumed? && inputs != [] then inputs[1..] else inputs
  }

  /** What the queue-backed read callback gives: its head, or nothing when it is empty. */
  function Head(inputs: seq<int>): Option<int> {
    if inputs == [] then None else Some(inputs[0])
  }

  /** A finished run, with earlier outputs put in front of its own. */
  function After(outputs: seq<int>, f: Finish): Finish {
    if f.Returned? then f.(outputs := outputs + f.outputs) else f
  }

  /**
   * `while (this.step());` with a read callback that hands out `inputs` in
   * order and then nothing, for at most `fuel` steps.
   */
  function Drive(m: Machine, inputs: seq<int>, fuel: nat): Finish
    decreases fuel, 0
  {
    if fuel == 0 then OutOfFuel else DriveStep(m, inputs, fuel - 1)
  }

  /** One step of `Drive` with `rest` steps left after it. */
  function DriveStep(m: Machine, inputs: seq<int>, rest: nat): Finish
    decreases rest, 1
  {
    if !Addressable(m, Head(inputs)) then Unmodelled
    else
      var t := Exec(m, Head(inputs));
      match t.signal
      case Threw(f) => Raised(f)
      case CannotContinue => Returned(t.next, Remaining(t.io, inputs), Written(t.io))
      case CanContinue => After(Written(t.io), Drive(t.next, Remaining(t.io, inputs), rest))
  }

  /** Earlier outputs put in front twice are put in front once, in order. */
  lemma AfterAfter(a: seq<int>, b: seq<int>, f: Finish)
    ensures After(a, After(b, f)) == After(a + b, f)
  {
    if f.Returned? {
      assert a + (b + f.outputs) == (a + b) + f.outputs;
    }
  }

  /**
   * One step of a run under way: `outputs` were written so far and the rest
   * of the run is `Drive` from `m`; after transition `t` the run has either
   * ended or goes on from `t.next`.
   */
  lemma DriveAdvance(target: Finish, outputs: seq<int>, m: Machine, inputs: seq<int>, fuel: nat, t: Transition)
    requires After(outputs, Drive(m, inputs, fuel)) == target
    requires fuel > 0 && Addressable(m, Head(inputs)) && t == Exec(m, Head(inputs))
    ensures t.signal.Threw? ==> target == Raised(t.signal.fault)
    ensures t.signal.CannotContinue? ==>
              target == Returned(t.next, Remaining(t.io, inputs), outputs + Written(t.io))
    ensures t.signal.CanContinue? ==>
              target == After(outputs + Written(t.io), Drive(t.next, Remaining(t.io, inputs), fuel - 1))
  {
    assert Drive(m, inputs, fuel) == DriveStep(m, inputs, fuel - 1);
    if t.signal.CanContinue? {
      AfterAfter(outputs, Written(t.io), Drive(t.next, Remaining(t.io, inputs), fuel - 1));
    }
  }

  /** One step returns false only when the machine has halted or its input instruction blocked. */
  lemma CannotContinueMeansHaltedOrBlocked(m: Machine, input: Option<int>)
    requires Addressable(m, input)
    requires Exec(m, input).signal == CannotContinue
    ensures Exec(m, input).next.halted || (Exec(m, input).next.blocked && input.None? && Exec(m, input).io == Starved)
  {
  }

  /**
   * A run returns when the machine has halted, or when an input instruction
   * blocked because every queued input was already read; so `run()` returns
   * true exactly when the machine halted.
   */
  lemma {:induction false} DriveStopsHaltedOrBlocked(m: Machine, inputs: seq<int>, fuel: nat)
    requires Drive(m, inputs, fuel).Returned?
    ensures Drive(m, inputs, fuel).machine.halted ||
            (Drive(m, inputs, fuel).machine.blocked && Drive(m, inputs, fuel).unread == [])
    decreases fuel
  {
    var t := Exec(m, Head(inputs));
    if t.signal == CannotContinue {
      CannotContinueMeansHaltedOrBlocked(m, Head(inputs));
    } else {
      DriveStopsHaltedOrBlocked(t.next, Remaining(t.io, inputs), fuel - 1);
    }
  }

  /**
   * A product of two immediate operands is stored and output as the full
   * 16-digit value; it lies below 2^53, where JavaScript numbers are still
   * exact integers.
   */
  lemma LargeProduct()
    ensures Drive(Loaded([1102, 34915192, 34915192, 7, 4, 7, 99, 0]), [], 3).Returned?
    ensures Drive(Loaded([1102, 34915192, 34915192, 7, 4, 7, 99, 0]), [], 3).outputs == [1219070632396864]
  {
    var m0 := Loaded([1102, 34915192, 34915192, 7, 4, 7, 99, 0]);
    assert OpCode(1102) == 2 && Modes(1102) == [1, 1, 0];
    var m1 := Exec(m0, None).next;
    assert m1.memory == [1102, 34915192, 34915192, 7, 4, 7, 99, 1219070632396864];
    assert OpCode(4) == 4 && Modes(4) == [0, 0, 0];
    assert OpCode(99) == 99;
    var m2 := Exec(m1, None).next;
    assert Exec(m1, None).io == Emitted(1219070632396864);
    assert Drive(m2, [], 1) == Returned(m2.(halted := true), [], []);
    assert Drive(m1, [], 2) == After([1219070632396864], Drive(m2, [], 1));
    assert Drive(m0, [], 3) == Drive(m1, [], 2);
  }

  /** An immediate operand of any size is output unchanged. */
  lemma LargeOutput()
    ensures Drive(Loaded([104, 1125899906842624, 99]), [], 2).outputs == [1125899906842624]
  {
    var q0 := Loaded([104, 1125899906842624, 99]);
    assert OpCode(104) == 4 && Modes(104) == [1, 0, 0];
    assert OpCode(99) == 99;
    var q1 := Exec(q0, None).next;
    assert Drive(q1, [], 1) == Returned(q1.(halted := true), [], []);
    assert Drive(q0, [], 2) == After([1125899906842624], Drive(q1, [], 1));
  }

  /**
   * `IntCodeComputer` of AOC19-13.js / AOC19-11.js. The read and write
   * callbacks are not stored: `Step` is given what the read callback would
   * return and reports through `io` which callback it called.
   */
  class IntCodeComputer {
    var memory: seq<int>
    var extendedMemory: map<int, int>
    var pointer: int
    var relativeBase: int
    var halted: bool
    var blocked: bool

    /** The fields as a machine state. */
    function State(): Machine
      reads this
    {
      Machine(memory, extendedMemory, pointer, relativeBase, halted, blocked)
    }

    /** A new computer is halted until a program is loaded. */
    constructor ()
      ensures State() == Machine([], map[], 0, 0, true, false)
    {
      memory, extendedMemory := [], map[];
      pointer, relativeBase := 0, 0;
      halted, blocked := true, false;
    }

    /** `load(program)`. */
    method Load(program: seq<int>)
      modifies this
      ensures State() == Loaded(program)
    {
      memory := program;
      halted := |memory| == 0;
      extendedMemory := map[];
      pointer := 0;
      relativeBase := 0;
      blocked := false;
    }

    /** `isRunning()`. */
    function IsRunning(): (running: bool)
      reads this
      ensures running <==> !State().halted
    {
      !halted
    }

    /** `_read(parameter, mode)` on the current fields. */
    function ReadOperand(parameter: int, mode: int): (v: int)
      reads this
      requires Resolvable(State(), parameter, mode)
      ensures v == Read(State(), parameter, mode)
    {
      if mode == 1 then parameter
      else
        var address := if mode == 2 then parameter + relativeBase else parameter;
        if address < |memory| then memory[address]
        else if address in extendedMemory then extendedMemory[address]
        else 0
    }

    /** `_write(parameter, mode, value)`. */
    method WriteOperand(parameter: int, mode: int, value: int)
      requires Address(State(), parameter, mode) >= 0
      modifies this
      ensures State() == Write(old(State()), parameter, mode, value)
    {
      var address := if mode == 2 then parameter + relativeBase else parameter;
      if address < |memory| {
        memory := memory[address := value];
      } else {
        extendedMemory := extendedMemory[address := value];
      }
    }

    /**
     * `step()`. `input` is what the read callback would return if called;
     * the new state, the result and the callback used are those of `Exec`.
     */
    method Step(input: Option<int>) returns (signal: Signal, io: Io)
      requires Addressable(State(), input)
      modifies this
      ensures Exec(old(State()), input) == Transition(State(), signal, io)
    {
      io := Silent;
      if halted {
        return CannotContinue, io;
      }
      if pointer < 0 {
        return Threw(UnsupportedOpcodeNaN), io;
      }
      var instruction := ReadOperand(pointer, 0);
      var opCode := OpCode(instruction);
      if opCode == 99 {
        halted := true;
        return CannotContinue, io;
      }
      var parameterCount := ParameterCount(opCode);
      if parameterCount.None? {
        return Threw(UnsupportedOpcode(opCode)), io;
      }
      var modes := ParameterModes(instruction);
      assert modes == Modes(instruction);
      if parameterCount.value == 1 {
        signal, io := StepUnary(opCode, modes, input);
      } else if parameterCount.value == 2 {
        signal, io := StepJump(opCode, modes);
      } else {
        signal, io := StepTernary(opCode, modes);
      }
    }

    /** The unary branch of `step()`: opcodes 3, 4 and 9. */
    method StepUnary(opCode: int, modes: seq<nat>, input: Option<int>) returns (signal: Signal, io: Io)
      requires pointer >= 0 && |modes| == 3 && OperandsAddressable(State(), opCode, modes, input) && opCode in {3, 4, 9}
      modifies this
      ensures Unary(old(State()), opCode, modes, input) == Transition(State(), signal, io)
    {
      var parameter1 := ReadOperand(pointer + 1, 0);
      io := Silent;
      if opCode == 3 {
        if input.None? {
          blocked := true;
          return CannotContinue, Starved;
        }
        blocked := false;
        WriteOperand(parameter1, modes[0], input.value);
        io := Consumed(input.value);
      } else if opCode == 4 {
        io := Emitted(ReadOperand(parameter1, modes[0]));
      } else {
        relativeBase := relativeBase + ReadOperand(parameter1, modes[0]);
      }
      pointer := pointer + 2;
      signal := CanContinue;
    }

    /** The binary branch of `step()`: the jumps, which return early when taken. */
    method StepJump(opCode: int, modes: seq<nat>) returns (signal: Signal, io: Io)
      requires pointer >= 0 && |modes| == 3 && OperandsAddressable(State(), opCode, modes, None) && opCode in {5, 6}
      modifies this
      ensures Jump(old(State()), opCode, modes) == Transition(State(), signal, io)
    {
      io := Silent;
      var parameter1 := ReadOperand(pointer + 1, 0);
      var parameter2 := ReadOperand(pointer + 2, 0);
      var value := ReadOperand(parameter1, modes[0]);
      var jumpTo := ReadOperand(parameter2, modes[1]);
      if (opCode == 5 && value != 0) || (opCode == 6 && value == 0) {
        pointer := jumpTo;
        return CanContinue, io;
      }
      pointer := pointer + 3;
      signal := CanContinue;
    }

    /** The ternary branch of `step()`: opcodes 1, 2, 7 and 8. */
    method StepTernary(opCode: int, modes: seq<nat>) returns (signal: Signal, io: Io)
      requires pointer >= 0 && |modes| == 3 && OperandsAddressable(State(), opCode, modes, None) && opCode in {1, 2, 7, 8}
      modifies this
      ensures Ternary(old(State()), opCode, modes) == Transition(State(), signal, io)
    {
      io := Silent;
      var parameter1 := ReadOperand(pointer + 1, 0);
      var parameter2 := ReadOperand(pointer + 2, 0);
      var parameter3 := ReadOperand(pointer + 3, 0);
      var a := ReadOperand(parameter1, modes[0]);
      var b := ReadOperand(parameter2, modes[1]);
      var result := Combine(opCode, a, b);
      WriteOperand(parameter3, modes[2], result);
      pointer := pointer + 4;
      signal := CanContinue;
    }

    /**
     * One step of a run under way: `outputs` were written so far and the
     * rest of the run is `Drive` from the current state over `queue`.
     */
    method Pump(ghost target: Finish, queue: seq<int>, outputs: seq<int>, left: nat)
      returns (signal: Signal, rest: seq<int>, written: seq<int>)
      requires left > 0 && Addressable(State(), Head(queue))
      requires After(outputs, Drive(State(), queue, left)) == target
      modifies this
      ensures signal.Threw? ==> target == Raised(signal.fault)
      ensures signal.CannotContinue? ==> target == Returned(State(), rest, written)
      ensures signal.CanContinue? ==> After(written, Drive(State(), rest, left - 1)) == target
    {
      ghost var m := State();
      var io;
      signal, io := Step(Head(queue));
      DriveAdvance(target, outputs, m, queue, left, Transition(State(), signal, io));
      rest := Remaining(io, queue);
      written := outputs + Written(io);
    }

    /**
     * `run(program)`: loads the program and steps until `step` returns false,
     * with a read callback that hands out `inputs` in order and then nothing;
     * returns whether the machine halted. `fuel` bounds the number of steps.
     */
    method Run(program: seq<int>, inputs: seq<int>, fuel: nat) returns (completed: bool, finish: Finish)
      modifies this
      ensures finish == Drive(Loaded(program), inputs, fuel)
      ensures finish.Returned? ==> State() == finish.machine
      ensures completed <==> finish.Returned? && finish.machine.halted
    {
      Load(program);
      var queue := inputs;
      var outputs: seq<int> := [];
      var left := fuel;
      ghost var target := Drive(Loaded(program), inputs, fuel);
      var end: Option<Finish> := None;
      while left > 0 && end.None?
        invariant end.None? ==> After(outputs, Drive(State(), queue, left)) == target
        invariant end.Some? ==> end.value == target && (target.Returned? ==> State() == target.machine)
        decreases left
      {
        if !Addressable(State(), Head(queue)) {
          end := Some(Unmodelled);
        } else {
          var signal;
          signal, queue, outputs := Pump(target, queue, outputs, left);
          if signal.Threw? {
            end := Some(Raised(signal.fault));
          } else if signal.CannotContinue? {
            end := Some(Returned(State(), queue, outputs));
          }
        }
        left := left - 1;
      }
      finish := if end.Some? then end.value else OutOfFuel;
      completed := finish.Returned? && !IsRunning();
    }
  }
}
