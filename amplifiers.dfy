/**
 * The amplifier feedback ring of AOC19-07.js: each `Amplifier` owns a
 * suspendable machine, answers its first input request with its phase and
 * later ones from a FIFO buffer, and forwards every output to the next
 * amplifier's buffer.
 */
module Amplifiers {
  import opened Wrappers
  import opened Signals
  import Vm = SuspendableVm
  import Permutations

  /** The read callback's state: whether the phase was given, and the buffered inputs. */
  datatype Port = Port(phase: int, hasProvidedPhaseInput: bool, inputBuffer: seq<int>)

  /** `_readHandler`: the phase on the first call, then the buffer's head, removed; null when it is empty. */
  function Poll(p: Port): (Option<int>, Port) {
    if !p.hasProvidedPhaseInput then (Some(p.phase), p.(hasProvidedPhaseInput := true))
    else if p.inputBuffer != [] then (Some(p.inputBuffer[0]), p.(inputBuffer := p.inputBuffer[1..]))
    else (None, p)
  }

  /** The inputs the callback will hand out, in order, if nothing is added. */
  function Pending(p: Port): seq<int> {
    (if p.hasProvidedPhaseInput then [] else [p.phase]) + p.inputBuffer
  }

  /** The values of `n` successive calls of the callback. */
  function PollMany(p: Port, n: nat): seq<Option<int>>
    decreases n
  {
    if n == 0 then [] else [Poll(p).0] + PollMany(Poll(p).1, n - 1)
  }

  /**
   * Called repeatedly with nothing added in between, the callback gives the
   * phase first (once only), then the buffered values in FIFO order, then
   * null on every later call.
   */
  lemma {:induction false} PollsInOrder(p: Port, n: nat)
    ensures |PollMany(p, n)| == n
    ensures forall k :: 0 <= k < n ==>
              PollMany(p, n)[k] == if k < |Pending(p)| then Some(Pending(p)[k]) else None
    decreases n
  {
    if n > 0 {
      var (v, q) := Poll(p);
      PollsInOrder(q, n - 1);
      assert Pending(p) == (if v.Some? then [v.value] else []) + Pending(q);
      forall k | 0 <= k < n
        ensures PollMany(p, n)[k] == if k < |Pending(p)| then Some(Pending(p)[k]) else None
      {
        if k > 0 {
          assert PollMany(p, n)[k] == PollMany(q, n - 1)[k - 1];
        }
      }
    }
  }

  /** One call of the callback takes the head of the pending inputs, and nothing when there is none. */
  lemma PollTakesHead(p: Port)
    ensures Poll(p).0 == Vm.Head(Pending(p))
    ensures Pending(Poll(p).1) == if Pending(p) == [] then [] else Pending(p)[1..]
  {
  }

  /** The callback's state after `n` successive calls with nothing added in between. */
  function Polled(p: Port, n: nat): Port
    decreases n
  {
    if n == 0 then p else Polled(Poll(p).1, n - 1)
  }

  /**
   * The callback's state once only `unread` of its pending inputs are left:
   * the phase counts as given as soon as anything was taken, and the buffer
   * is what is left.
   */
  function Leave(p: Port, unread: seq<int>): Port {
    if p.hasProvidedPhaseInput || |unread| < |Pending(p)| then p.(hasProvidedPhaseInput := true, inputBuffer := unread)
    else p
  }

  /**
   * Leaving the last `|Pending(p)| - n` pending inputs is calling the
   * callback `n` times: `Leave` is the state of the callback after a run
   * that took the first `n` pending inputs.
   */
  lemma {:induction false} LeaveIsPolling(p: Port, n: nat)
    requires n <= |Pending(p)|
    ensures Leave(p, Pending(p)[n..]) == Polled(p, n)
    ensures Pending(Polled(p, n)) == Pending(p)[n..]
    decreases n
  {
    if n > 0 {
      var q := Poll(p).1;
      PollTakesHead(p);
      assert Pending(q) == Pending(p)[1..];
      LeaveIsPolling(q, n - 1);
      assert Pending(q)[n - 1..] == Pending(p)[n..];
    }
  }

  /** Leaving every pending input unread leaves the callback as it was; one call leaves what it did not take. */
  lemma LeaveAfterPoll(p: Port)
    ensures Leave(p, Pending(p)) == p
    ensures Leave(p, Pending(Poll(p).1)) == Poll(p).1
  {
  }

  /** Leaving `a` and then, of what is left, `b` is leaving `b` at once. */
  lemma LeaveTwice(p: Port, a: seq<int>, b: seq<int>)
    requires |b| <= |Pending(Leave(p, a))|
    ensures Leave(Leave(p, a), b) == Leave(p, b)
  {
  }

  class Amplifier {
    const phase: int
    var hasProvidedPhaseInput: bool
    var inputBuffer: seq<int>
    const computer: Vm.IntCodeComputer
    var consumer: Amplifier?

    /** The read callback's state. */
    function State(): Port
      reads this
    {
      Port(phase, hasProvidedPhaseInput, inputBuffer)
    }

    /** `new Amplifier(program, phase, name)`: a loaded machine, no input given yet. */
    constructor (program: seq<int>, phase: int)
      ensures State() == Port(phase, false, []) && consumer == null
      ensures fresh(computer) && computer.State() == Vm.Loaded(program)
    {
      this.phase := phase;
      this.hasProvidedPhaseInput := false;
      this.inputBuffer := [];
      var c := new Vm.IntCodeComputer();
      c.Load(program);
      this.computer := c;
      this.consumer := null;
    }

    /** The amplifier whose buffer receives this one's outputs, as a set. */
    function Receivers(): set<Amplifier>
      reads this
    {
      if consumer == null then {} else {consumer}
    }

    /** `_readHandler()`. */
    method ReadHandler() returns (value: Option<int>)
      modifies this`hasProvidedPhaseInput, this`inputBuffer
      ensures (value, State()) == Poll(old(State()))
    {
      value := None;
      if !hasProvidedPhaseInput {
        hasProvidedPhaseInput := true;
        value := Some(phase);
      } else if |inputBuffer| > 0 {
        value := Some(inputBuffer[0]);
        inputBuffer := inputBuffer[1..];
      }
    }

    /** `addInput(value)`: appends any value except null/undefined. */
    method AddInput(value: Option<int>)
      modifies this`inputBuffer
      ensures inputBuffer == old(inputBuffer) + (if value.Some? then [value.value] else [])
    {
      if value.Some? {
        inputBuffer := inputBuffer + [value.value];
      }
    }

    /** `_writeHandler(value)`: forwards the value to the consumer, if there is one. */
    method WriteHandler(value: int)
      modifies Receivers()`inputBuffer
      ensures consumer != null ==> consumer.inputBuffer == old(consumer.inputBuffer) + [value]
    {
      if consumer != null {
        consumer.AddInput(Some(value));
      }
    }

    /** `isRunning()`. */
    function IsRunning(): (running: bool)
      reads this, computer
      ensures running <==> !computer.State().halted
    {
      computer.IsRunning()
    }

    /** The callback effect of a step that reported `io`: a consumed input leaves the buffer, an output goes to the consumer. */
    method Answer(io: Io)
      requires consumer != this
      requires io.Consumed? ==> Pending(State()) != []
      requires io.Starved? ==> Pending(State()) == []
      modifies this`hasProvidedPhaseInput, this`inputBuffer, Receivers()`inputBuffer
      ensures consumer == old(consumer)
      ensures Pending(State()) == Vm.Remaining(io, old(Pending(State())))
      ensures State() == Leave(old(State()), Pending(State()))
      ensures consumer != null ==> consumer.inputBuffer == old(consumer.inputBuffer) + Vm.Written(io)
    {
      PollTakesHead(State());
      LeaveAfterPoll(State());
      if io.Consumed? || io.Starved? {
        var _ := ReadHandler();
      } else if io.Emitted? {
        WriteHandler(io.value);
      }
    }

    /** One `step()` of the machine, with the read or write callback it calls. */
    method StepWithHandlers(input: Option<int>) returns (signal: Signal, io: Io)
      requires consumer != this && input == Vm.Head(Pending(State()))
      requires Vm.Defined(computer.State(), input)
      modifies this`hasProvidedPhaseInput, this`inputBuffer, computer, Receivers()`inputBuffer
      ensures Vm.Exec(old(computer.State()), input) == Vm.Transition(computer.State(), signal, io)
      ensures Pending(State()) == Vm.Remaining(io, old(Pending(State())))
      ensures State() == Leave(old(State()), Pending(State()))
      ensures consumer == old(consumer)
      ensures consumer != null ==> consumer.inputBuffer == old(consumer.inputBuffer) + Vm.Written(io)
    {
      Vm.InputUse(computer.State(), input);
      signal, io := computer.Step(input);
      Answer(io);
    }

    /**
     * One step of a run under way: `outputs` were forwarded so far and the
     * rest of the run is `Drive` from the machine's state over the pending
     * inputs. Returns the run's end when this step ends it.
     */
    method Pump(ghost target: Vm.Finish, ghost start: Port, outputs: seq<int>, left: nat)
      returns (end: Option<Vm.Finish>, emitted: seq<int>)
      requires consumer != this && left > 0
      requires State() == Leave(start, Pending(State()))
      requires Vm.After(outputs, Vm.Drive(computer.State(), Pending(State()), left)) == target
      modifies this`hasProvidedPhaseInput, this`inputBuffer, computer, Receivers()`inputBuffer
      ensures consumer == old(consumer)
      ensures consumer != null ==> consumer.inputBuffer == old(consumer.inputBuffer) + emitted
      ensures State() == Leave(start, Pending(State()))
      ensures end.Some? ==> end.value == target
      ensures end.Some? && target.Returned? ==>
                target.machine == computer.State() && target.unread == Pending(State()) &&
                target.outputs == outputs + emitted
      ensures end.None? ==> Vm.After(outputs + emitted, Vm.Drive(computer.State(), Pending(State()), left - 1)) == target
    {
      var queue := Pending(State());
      if !Vm.Defined(computer.State(), Vm.Head(queue)) {
        return Some(Vm.Unmodelled), [];
      }
      ghost var m := computer.State();
      var signal, io := StepWithHandlers(Vm.Head(queue));
      LeaveTwice(start, queue, Pending(State()));
      Vm.DriveAdvance(target, outputs, m, queue, left, Vm.Transition(computer.State(), signal, io));
      emitted := Vm.Written(io);
      match signal {
        case Threw(f) =>
          end := Some(Vm.Raised(f));
        case CannotContinue =>
          end := Some(Vm.Returned(computer.State(), Pending(State()), outputs + emitted));
        case CanContinue =>
          end := None;
      }
    }

    /**
     * `run()`: steps the machine until `step` returns false, with this
     * amplifier's callbacks; returns whether the machine halted. When the
     * consumer is another amplifier, the run is `Drive` over the pending
     * inputs, and its outputs are appended to the consumer's buffer.
     */
    method Run(fuel: nat) returns (completed: bool, finish: Vm.Finish)
      requires consumer != this
      modifies this`hasProvidedPhaseInput, this`inputBuffer, computer, Receivers()`inputBuffer
      ensures finish == Vm.Drive(old(computer.State()), old(Pending(State())), fuel)
      ensures finish.Returned? ==> computer.State() == finish.machine && Pending(State()) == finish.unread
      ensures finish.Returned? ==> State() == Leave(old(State()), finish.unread)
      ensures finish.Returned? && consumer != null ==>
                consumer.inputBuffer == old(consumer.inputBuffer) + finish.outputs
      ensures completed <==> finish.Returned? && finish.machine.halted
    {
      ghost var target := Vm.Drive(computer.State(), Pending(State()), fuel);
      ghost var received := if consumer != null then consumer.inputBuffer else [];
      ghost var start := State();
      LeaveAfterPoll(start);
      var outputs: seq<int> := [];
      var left := fuel;
      var end: Option<Vm.Finish> := None;
      while left > 0 && end.None?
        invariant consumer == old(consumer) && consumer != this
        invariant consumer != null ==> consumer.inputBuffer == received + outputs
        invariant State() == Leave(start, Pending(State()))
        invariant end.None? ==> Vm.After(outputs, Vm.Drive(computer.State(), Pending(State()), left)) == target
        invariant end.Some? ==> end.value == target
        invariant end.Some? && target.Returned? ==>
                    target.machine == computer.State() && target.unread == Pending(State()) && target.outputs == outputs
        decreases left
      {
        var emitted;
        end, emitted := Pump(target, start, outputs, left);
        outputs := outputs + emitted;
        left := left - 1;
      }
      finish := if end.Some? then end.value else Vm.OutOfFuel;
      completed := finish.Returned? && !IsRunning();
    }
  }

  /** The amplifiers are distinct objects, with distinct machines. */
  ghost predicate Separate(amplifiers: seq<Amplifier>)
    reads set a | a in amplifiers
  {
    forall i, j :: 0 <= i < j < |amplifiers| ==>
      amplifiers[i] != amplifiers[j] && amplifiers[i].computer != amplifiers[j].computer
  }

  /** Each amplifier's consumer is the next one, and the last one's is the first. */
  ghost predicate Linked(amplifiers: seq<Amplifier>)
    reads set a | a in amplifiers
  {
    forall i :: 0 <= i < |amplifiers| ==> amplifiers[i].consumer == amplifiers[(i + 1) % |amplifiers|]
  }

  /** `amplifiers.some(a => a.isRunning())`. */
  predicate AnyRunning(amplifiers: seq<Amplifier>)
    reads set a | a in amplifiers, set a | a in amplifiers :: a.computer
  {
    exists i :: 0 <= i < |amplifiers| && amplifiers[i].IsRunning()
  }

  /** The amplifiers of a ring, one per phase, each feeding the next and the last feeding the first. */
  method Build(program: seq<int>, phases: seq<int>) returns (amplifiers: seq<Amplifier>)
    requires |phases| >= 2
    ensures |amplifiers| == |phases| && Separate(amplifiers) && Linked(amplifiers)
    ensures forall k :: 0 <= k < |phases| ==>
              fresh(amplifiers[k]) && fresh(amplifiers[k].computer) &&
              amplifiers[k].State() == Port(phases[k], false, []) &&
              amplifiers[k].computer.State() == Vm.Loaded(program)
  {
    var n := |phases|;
    amplifiers := [];
    for i := 0 to n
      invariant |amplifiers| == i && Separate(amplifiers)
      invariant forall k :: 0 <= k < i ==>
                  fresh(amplifiers[k]) && fresh(amplifiers[k].computer) &&
                  amplifiers[k].State() == Port(phases[k], false, []) &&
                  amplifiers[k].computer.State() == Vm.Loaded(program)
    {
      var a := new Amplifier(program, phases[i]);
      amplifiers := amplifiers + [a];
    }
    for i := 0 to n
      invariant forall k :: 0 <= k < n ==>
                  amplifiers[k].State() == Port(phases[k], false, []) &&
                  amplifiers[k].computer.State() == Vm.Loaded(program)
      invariant forall k :: 0 <= k < i ==> amplifiers[k].consumer == amplifiers[(k + 1) % n]
    {
      amplifiers[i].consumer := amplifiers[(i + 1) % n];
    }
  }

  /** One amplifier of the ring as values: its machine and its read callback's state. */
  datatype Stage = Stage(machine: Vm.Machine, port: Port)

  /** `addInput` of each value in turn: they queue after the buffered ones. */
  function Feed(p: Port, values: seq<int>): (q: Port)
    ensures Pending(q) == Pending(p) + values && q.phase == p.phase
  {
    p.(inputBuffer := p.inputBuffer + values)
  }

  /**
   * `run()` of amplifier `i` of the ring: its machine is driven over its
   * pending inputs, keeps what it took, and every value it writes is added
   * to the next amplifier's buffer (the first one's, after the last). None
   * when the run does not return (it throws, would reach outside the
   * memory, or exceeds `fuel` steps).
   */
  function RunStage(ring: seq<Stage>, i: nat, fuel: nat): (r: Option<seq<Stage>>)
    requires 2 <= |ring| && i < |ring|
    ensures r.Some? <==> Vm.Drive(ring[i].machine, Pending(ring[i].port), fuel).Returned?
    ensures r.Some? ==> |r.value| == |ring|
  {
    var s := ring[i];
    var f := Vm.Drive(s.machine, Pending(s.port), fuel);
    if !f.Returned? then None
    else
      var ran := ring[i := Stage(f.machine, Leave(s.port, f.unread))];
      var j := (i + 1) % |ring|;
      Some(ran[j := ran[j].(port := Feed(ran[j].port, f.outputs))])
  }

  /** The first `k` runs of a round, in index order; None once one of them does not return. */
  function RoundTo(ring: seq<Stage>, k: nat, fuel: nat): (r: Option<seq<Stage>>)
    requires 2 <= |ring| && k <= |ring|
    ensures r.Some? ==> |r.value| == |ring|
    decreases k
  {
    if k == 0 then Some(ring)
    else match RoundTo(ring, k - 1, fuel)
      case None => None
      case Some(r) => RunStage(r, k - 1, fuel)
  }

  /** `amplifiers.forEach(a => a.run())` on the ring as values. */
  function RingRound(ring: seq<Stage>, fuel: nat): Option<seq<Stage>>
    requires 2 <= |ring|
  {
    RoundTo(ring, |ring|, fuel)
  }

  /** A round that failed stays failed, however many runs follow. */
  lemma {:induction false} RoundToFails(ring: seq<Stage>, i: nat, k: nat, fuel: nat)
    requires 2 <= |ring| && i <= k <= |ring|
    requires RoundTo(ring, i, fuel).None?
    ensures RoundTo(ring, k, fuel).None?
    decreases k
  {
    if k > i {
      RoundToFails(ring, i, k - 1, fuel);
    }
  }

  /** Some machine of the ring has not halted. */
  predicate Running(ring: seq<Stage>) {
    exists i :: 0 <= i < |ring| && !ring[i].machine.halted
  }

  /**
   * `while (amplifiers.some(a => a.isRunning())) amplifiers.forEach(a =>
   * a.run())`, at most `rounds` times: the ring once every machine has
   * halted. None when a run does not return or the rounds run out first.
   */
  function Cycle(ring: seq<Stage>, rounds: nat, fuel: nat): (r: Option<seq<Stage>>)
    requires 2 <= |ring|
    ensures r.Some? ==> |r.value| == |ring| && !Running(r.value)
    decreases rounds
  {
    if !Running(ring) then Some(ring)
    else if rounds == 0 then None
    else match RingRound(ring, fuel)
      case None => None
      case Some(r) => Cycle(r, rounds - 1, fuel)
  }

  /** A ring still running goes one round further, with one round fewer left. */
  lemma CycleOnce(ring: seq<Stage>, rounds: nat, fuel: nat)
    requires 2 <= |ring| && Running(ring) && rounds > 0
    ensures RingRound(ring, fuel).None? ==> Cycle(ring, rounds, fuel).None?
    ensures RingRound(ring, fuel).Some? ==> Cycle(ring, rounds, fuel) == Cycle(RingRound(ring, fuel).value, rounds - 1, fuel)
  {
  }

  /** Once the ring has stopped within `rounds` rounds, allowing more rounds changes nothing. */
  lemma {:induction false} CycleMoreRounds(ring: seq<Stage>, rounds: nat, more: nat, fuel: nat)
    requires 2 <= |ring| && Cycle(ring, rounds, fuel).Some?
    ensures Cycle(ring, rounds + more, fuel) == Cycle(ring, rounds, fuel)
    decreases rounds
  {
    if Running(ring) {
      CycleMoreRounds(RingRound(ring, fuel).value, rounds - 1, more, fuel);
    }
  }

  /** The ring as built: one loaded machine per phase, nothing given yet, and the 0 in the first buffer. */
  function Start(program: seq<int>, phases: seq<int>): (ring: seq<Stage>)
    ensures |ring| == |phases|
    ensures forall k :: 0 <= k < |phases| ==> ring[k].port.phase == phases[k] && ring[k].machine == Vm.Loaded(program)
    ensures forall k :: 0 <= k < |phases| ==> Pending(ring[k].port) == [phases[k]] + (if k == 0 then [0] else [])
  {
    seq(|phases|, k requires 0 <= k < |phases| => Stage(Vm.Loaded(program), Port(phases[k], false, if k == 0 then [0] else [])))
  }

  /**
   * The answer of the ring for one phase order: the first value buffered
   * for the first amplifier once every machine has halted; None when there
   * is none, or when the ring does not stop within the bounds.
   */
  function RingAnswer(program: seq<int>, phases: seq<int>, rounds: nat, fuel: nat): Option<int>
    requires |phases| >= 2
  {
    match Cycle(Start(program, phases), rounds, fuel)
    case None => None
    case Some(r) => Vm.Head(r[0].port.inputBuffer)
  }

  /** `ring` is the amplifiers as values: each one's machine and read callback. */
  ghost predicate Mirrors(amplifiers: seq<Amplifier>, ring: seq<Stage>)
    reads set a | a in amplifiers, set a | a in amplifiers :: a.computer
  {
    |ring| == |amplifiers| &&
    forall i :: 0 <= i < |amplifiers| ==> ring[i] == Stage(amplifiers[i].computer.State(), amplifiers[i].State())
  }

  /** `run()` of amplifier `i` of a linked ring: the amplifiers end as `RunStage` of where they started. */
  method RunAt(amplifiers: seq<Amplifier>, i: nat, fuel: nat, ghost ring: seq<Stage>) returns (ok: bool)
    requires 2 <= |amplifiers| && i < |amplifiers| && Separate(amplifiers) && Linked(amplifiers)
    requires Mirrors(amplifiers, ring)
    modifies set a | a in amplifiers, set a | a in amplifiers :: a.computer
    ensures Linked(amplifiers)
    ensures ok <==> RunStage(ring, i, fuel).Some?
    ensures ok ==> Mirrors(amplifiers, RunStage(ring, i, fuel).value)
  {
    var n := |amplifiers|;
    var next := if i + 1 < n then i + 1 else 0;
    assert (i + 1) % n == next;
    assert amplifiers[i].consumer == amplifiers[next] != amplifiers[i];
    var _, finish := amplifiers[i].Run(fuel);
    ok := finish.Returned?;
    if ok {
      var expected := RunStage(ring, i, fuel).value;
      forall k | 0 <= k < n
        ensures expected[k] == Stage(amplifiers[k].computer.State(), amplifiers[k].State())
      {
        if k != i && k != next {
          assert amplifiers[k] != amplifiers[i] && amplifiers[k].computer != amplifiers[i].computer;
        }
      }
    }
  }

  /**
   * `amplifiers.forEach(a => a.run())`, each run bounded by `fuel` steps,
   * stopping at the first run that does not return: the amplifiers end as
   * `RingRound` of where they started.
   */
  method Round(amplifiers: seq<Amplifier>, fuel: nat, ghost ring: seq<Stage>) returns (ok: bool)
    requires |amplifiers| >= 2 && Separate(amplifiers) && Linked(amplifiers)
    requires Mirrors(amplifiers, ring)
    modifies set a | a in amplifiers, set a | a in amplifiers :: a.computer
    ensures Linked(amplifiers)
    ensures ok <==> RingRound(ring, fuel).Some?
    ensures ok ==> Mirrors(amplifiers, RingRound(ring, fuel).value)
  {
    var n := |amplifiers|;
    ok := true;
    var i := 0;
    while i < n && ok
      invariant 0 <= i <= n && Linked(amplifiers)
      invariant ok <==> RoundTo(ring, i, fuel).Some?
      invariant ok ==> Mirrors(amplifiers, RoundTo(ring, i, fuel).value)
    {
      ok := RunAt(amplifiers, i, fuel, RoundTo(ring, i, fuel).value);
      i := i + 1;
    }
    if !ok {
      RoundToFails(ring, i, n, fuel);
    }
  }

  /** The amplifiers are running exactly when the machines of the ring they mirror are. */
  lemma MirrorsRunning(amplifiers: seq<Amplifier>, ring: seq<Stage>)
    requires Mirrors(amplifiers, ring)
    ensures AnyRunning(amplifiers) <==> Running(ring)
  {
    if Running(ring) {
      var i :| 0 <= i < |ring| && !ring[i].machine.halted;
      assert amplifiers[i].IsRunning();
    }
  }

  /** The ring built for `phases`, with the 0 given to the first amplifier: `Start` as objects. */
  method Launch(program: seq<int>, phases: seq<int>) returns (amplifiers: seq<Amplifier>)
    requires |phases| >= 2
    ensures |amplifiers| == |phases| && Separate(amplifiers) && Linked(amplifiers)
    ensures forall k :: 0 <= k < |phases| ==> fresh(amplifiers[k]) && fresh(amplifiers[k].computer)
    ensures forall k :: 0 <= k < |phases| ==> amplifiers[k].phase == phases[k]
    ensures Mirrors(amplifiers, Start(program, phases))
  {
    amplifiers := Build(program, phases);
    amplifiers[0].AddInput(Some(0));
    ghost var ring := Start(program, phases);
    forall k | 0 <= k < |phases|
      ensures ring[k] == Stage(amplifiers[k].computer.State(), amplifiers[k].State())
    {
      if k > 0 {
        assert amplifiers[k] != amplifiers[0];
      }
    }
  }

  /**
   * `while (amplifiers.some(a => a.isRunning())) amplifiers.forEach(a =>
   * a.run())`, at most `rounds` times: true when every machine has halted,
   * the amplifiers then mirroring `Cycle` of the ring they started as.
   */
  method Spin(amplifiers: seq<Amplifier>, rounds: nat, fuel: nat, ghost ring: seq<Stage>) returns (ok: bool)
    requires |amplifiers| >= 2 && Separate(amplifiers) && Linked(amplifiers)
    requires Mirrors(amplifiers, ring)
    modifies set a | a in amplifiers, set a | a in amplifiers :: a.computer
    ensures Separate(amplifiers) && Linked(amplifiers)
    ensures ok <==> Cycle(ring, rounds, fuel).Some?
    ensures ok ==> Mirrors(amplifiers, Cycle(ring, rounds, fuel).value)
  {
    var round := 0;
    ok := true;
    ghost var now := ring;
    while ok && round < rounds && AnyRunning(amplifiers)
      invariant round <= rounds
      invariant Separate(amplifiers) && Linked(amplifiers)
      invariant ok ==> 2 <= |now| && Mirrors(amplifiers, now) && Cycle(ring, rounds, fuel) == Cycle(now, rounds - round, fuel)
      invariant !ok ==> Cycle(ring, rounds, fuel).None?
      decreases rounds - round
    {
      MirrorsRunning(amplifiers, now);
      CycleOnce(now, rounds - round, fuel);
      ok := Round(amplifiers, fuel, now);
      if ok {
        now := RingRound(now, fuel).value;
      }
      round := round + 1;
    }
    if ok {
      MirrorsRunning(amplifiers, now);
      ok := !AnyRunning(amplifiers);
    }
  }

  /**
   * The feedback ring for one phase order: a 0 given to the first
   * amplifier, then rounds of `run()` on every amplifier while any of them
   * is running. The answer is the first value buffered for the first
   * amplifier (undefined, here None, when there is none). `rounds` bounds
   * the rounds and `fuel` the steps of each run; the answer is None when
   * a bound is reached or a run throws.
   */
  method Feedback(program: seq<int>, phases: seq<int>, rounds: nat, fuel: nat)
    returns (output: Option<int>, amplifiers: seq<Amplifier>)
    requires |phases| >= 2
    ensures |amplifiers| == |phases| && Separate(amplifiers) && Linked(amplifiers)
    ensures forall i :: 0 <= i < |amplifiers| ==> amplifiers[i].phase == phases[i]
    ensures output == RingAnswer(program, phases, rounds, fuel)
    ensures Cycle(Start(program, phases), rounds, fuel).Some? ==>
              Mirrors(amplifiers, Cycle(Start(program, phases), rounds, fuel).value)
  {
    amplifiers := Launch(program, phases);
    var ok := Spin(amplifiers, rounds, fuel, Start(program, phases));
    if ok {
      output := Vm.Head(amplifiers[0].inputBuffer);
    } else {
      output := None;
    }
  }

  /** The answer of the feedback ring for one phase order, the amplifiers left behind. */
  method FeedbackAnswer(program: seq<int>, phases: seq<int>, rounds: nat, fuel: nat) returns (output: Option<int>)
    requires |phases| >= 2
    ensures output == RingAnswer(program, phases, rounds, fuel)
  {
    var amplifiers;
    output, amplifiers := Feedback(program, phases, rounds, fuel);
  }

  /** `Math.max(output, best)`: an undefined output, like a NaN maximum so far, gives NaN (None). */
  function JsMax(output: Option<int>, best: Option<int>): (r: Option<int>)
    ensures r.Some? <==> output.Some? && best.Some?
    ensures r.Some? ==> r.value >= output.value && r.value >= best.value
    ensures r.Some? ==> r.value == output.value || r.value == best.value
  {
    if output.None? || best.None? then None
    else if output.value > best.value then output else best
  }

  /**
   * The search of part two: the feedback ring for every order of the
   * phases (5 to 9 in the puzzle), keeping the largest answer, starting
   * from 0; `outputs` lists the answer of each order, which is the
   * answer of the ring for that order.
   */
  method BestFeedback(program: seq<int>, phases: seq<int>, rounds: nat, fuel: nat)
    returns (maxOutput: Option<int>, outputs: seq<Option<int>>)
    requires |phases| >= 2
    ensures |outputs| == |Permutations.Permutate(phases)| == Permutations.Factorial(|phases|)
    ensures forall k :: 0 <= k < |outputs| ==>
              (|Permutations.Permutate(phases)[k]| == |phases| &&
               outputs[k] == RingAnswer(program, Permutations.Permutate(phases)[k], rounds, fuel))
    ensures maxOutput.Some? <==> forall k :: 0 <= k < |outputs| ==> outputs[k].Some?
    ensures maxOutput.Some? ==> maxOutput.value >= 0 && forall k :: 0 <= k < |outputs| ==> outputs[k].value <= maxOutput.value
    ensures maxOutput.Some? && maxOutput.value != 0 ==> exists k :: 0 <= k < |outputs| && outputs[k] == maxOutput
  {
    var orders := Permutations.Permutate(phases);
    Permutations.PermutationCount(phases);
    maxOutput := Some(0);
    outputs := [];
    for j := 0 to |orders|
      invariant |outputs| == j
      invariant forall k :: 0 <= k < j ==> |orders[k]| == |phases| && outputs[k] == RingAnswer(program, orders[k], rounds, fuel)
      invariant maxOutput.Some? <==> forall k :: 0 <= k < j ==> outputs[k].Some?
      invariant maxOutput.Some? ==> maxOutput.value >= 0 && forall k :: 0 <= k < j ==> outputs[k].value <= maxOutput.value
      invariant maxOutput.Some? && maxOutput.value != 0 ==> exists k :: 0 <= k < j && outputs[k] == maxOutput
    {
      Permutations.EachIsRearrangement(phases, orders[j]);
      var output := FeedbackAnswer(program, orders[j], rounds, fuel);
      ghost var before := outputs;
      maxOutput := JsMax(output, maxOutput);
      outputs := outputs + [output];
      assert forall k :: 0 <= k < j ==> outputs[k] == before[k];
      assert outputs[j] == output;
    }
  }
}
