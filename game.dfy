/**
 * The arcade cabinet of AOC19-13.js (13.2): an extended Intcode machine
 * whose outputs come in triples (x, y, tile), where (-1, 0, s) sets the score
 * to s and any other triple draws a tile on the screen, remembering where the
 * paddle (tile 3) and the ball (tile 4) were last drawn. The read callback
 * alternates between giving nothing and giving the joystick, and after every
 * step that left the callback waiting the joystick is set to the sign of
 * ball.x - paddle.x; so every input instruction blocks once, the joystick is
 * aimed, and the retry reads it.
 *
 * `Poll`, `Record`, `Aim` and `Session` are the cabinet as functions of its
 * variables and of the `value` property of the screen's points; the class
 * `Arcade` holds the source's variables and a `Plane`, and its handlers and
 * its loop are proved to perform exactly those functions.
 */
module Breakout {
  import opened Wrappers
  import opened Signals
  import opened Planes
  import Vm = ExtendedVm

  /**
   * The variables the callbacks share: the outputs of the triple in progress,
   * the score, the last paddle and ball positions, the read callback's toggle,
   * the joystick, and the `value` of every point of the screen.
   */
  datatype Cabinet = Cabinet(
    pending: seq<int>,
    score: int,
    paddle: (int, int),
    ball: (int, int),
    needsInput: bool,
    joystick: int,
    tiles: map<(int, int), Option<int>>)

  /** `difference < 0 ? -1 : difference > 0 ? 1 : 0`. */
  function Sign(difference: int): (s: int)
    ensures -1 <= s <= 1
    ensures s < 0 <==> difference < 0
    ensures s > 0 <==> difference > 0
  {
    if difference < 0 then -1 else if difference > 0 then 1 else 0
  }

  /** The read callback: flip `needsInput`, then give the joystick only when it is now false. */
  function Poll(c: Cabinet): (Cabinet, Option<int>) {
    var flipped := c.(needsInput := !c.needsInput);
    (flipped, if !flipped.needsInput then Some(c.joystick) else None)
  }

  /**
   * Two calls of the read callback in a row: exactly one of them gives a
   * value, and the toggle is back where it started.
   */
  lemma PollAlternates(c: Cabinet)
    ensures Poll(Poll(c).0).0 == c
    ensures Poll(c).1.Some? != Poll(Poll(c).0).1.Some?
    ensures Poll(c).1.None? <==> !c.needsInput
  {
  }

  /** A complete triple: the score for (-1, 0), otherwise a tile. */
  function Draw(c: Cabinet, x: int, y: int, tile: int): Cabinet {
    if x == -1 && y == 0 then c.(score := tile) else Place(c, x, y, tile)
  }

  /** A tile on the screen, which moves the paddle (3) or the ball (4) when it is one. */
  function Place(c: Cabinet, x: int, y: int, tile: int): Cabinet {
    var drawn := c.(tiles := c.tiles[(x, y) := Some(tile)]);
    if tile == 3 then drawn.(paddle := (x, y))
    else if tile == 4 then drawn.(ball := (x, y))
    else drawn
  }

  /** The write callback: collect the output; the third one completes a triple, which is drawn and cleared. */
  function Record(c: Cabinet, value: int): (r: Cabinet)
    ensures |c.pending| < 3 ==> |r.pending| == (|c.pending| + 1) % 3
    ensures r.needsInput == c.needsInput && r.joystick == c.joystick
  {
    var pending := c.pending + [value];
    if |pending| == 3 then Draw(c.(pending := []), pending[0], pending[1], pending[2])
    else c.(pending := pending)
  }

  /** The write callback applied to a stream of outputs, in order. */
  function Replay(c: Cabinet, outputs: seq<int>): Cabinet
    decreases |outputs|
  {
    if outputs == [] then c else Replay(Record(c, outputs[0]), outputs[1..])
  }

  /** Three outputs from an empty buffer draw exactly the triple they form. */
  lemma ReplayTriple(c: Cabinet, x: int, y: int, tile: int)
    requires c.pending == []
    ensures Replay(c, [x, y, tile]) == Draw(c, x, y, tile)
  {
    var first := Record(c, x);
    assert first == c.(pending := [x]);
    var second := Record(first, y);
    assert second == c.(pending := [x, y]);
    assert Record(second, tile) == Draw(c, x, y, tile);
    assert [x, y, tile][1..] == [y, tile];
    assert [y, tile][1..] == [tile];
    assert Replay(second, [tile]) == Replay(Record(second, tile), []);
  }

  /**
   * Outputs are grouped in threes from the start: after any stream the buffer
   * holds the outputs past the last complete triple.
   */
  lemma {:induction false} ReplayGroups(c: Cabinet, outputs: seq<int>)
    requires |c.pending| < 3
    ensures |Replay(c, outputs).pending| == (|c.pending| + |outputs|) % 3
    ensures Replay(c, outputs).needsInput == c.needsInput
    decreases |outputs|
  {
    if outputs != [] {
      ReplayGroups(Record(c, outputs[0]), outputs[1..]);
    }
  }

  /** After each step: while the read callback is waiting, aim the joystick from the paddle towards the ball. */
  function Aim(c: Cabinet): (r: Cabinet)
    ensures r.needsInput == c.needsInput && r.pending == c.pending
    ensures c.needsInput ==> r.joystick == Sign(c.ball.0 - c.paddle.0)
    ensures !c.needsInput ==> r == c
  {
    if c.needsInput then c.(joystick := Sign(c.ball.0 - c.paddle.0)) else c
  }

  /** `code[0] = '2'`: the program with its first word replaced by 2 (free play). */
  function FreePlay(program: seq<int>): (code: seq<int>)
    ensures |code| == if |program| == 0 then 1 else |program|
    ensures code[0] == 2 && forall i :: 1 <= i < |program| ==> code[i] == program[i]
  {
    if |program| == 0 then [2] else program[0 := 2]
  }

  /** How the game loop ends. */
  datatype Outcome =
    | Finished(machine: Vm.Machine, cabinet: Cabinet) // `isRunning()` became false
    | Raised(fault: Fault)     // `step` threw
    | Unmodelled               // the next step would resolve a negative address
    | OutOfFuel                // the step budget ran out

  /** What the read callback gives the next step, with the variables after the call: only an input instruction calls it. */
  function Offer(m: Vm.Machine, c: Cabinet): (Cabinet, Option<int>) {
    if Vm.AwaitsInput(m) then Poll(c) else (c, None)
  }

  /** `do { step(); steer } while (isRunning())`, for at most `fuel` steps. */
  function Session(m: Vm.Machine, c: Cabinet, fuel: nat): Outcome
    decreases fuel, 0
  {
    if fuel == 0 then OutOfFuel else SessionStep(m, c, fuel - 1)
  }

  /** One pass of the loop with `rest` passes left after it. */
  function SessionStep(m: Vm.Machine, c: Cabinet, rest: nat): Outcome
    decreases rest, 2
  {
    Settle(m, Offer(m, c), rest)
  }

  /** The instruction, the write callback and the steering, once the read callback has made its `offered` input. */
  function Settle(m: Vm.Machine, offered: (Cabinet, Option<int>), rest: nat): Outcome
    decreases rest, 1
  {
    if !Vm.Addressable(m, offered.1) then Unmodelled
    else
      var t := Vm.Exec(m, offered.1);
      var after := Aim(if t.io.Emitted? then Record(offered.0, t.io.value) else offered.0);
      match t.signal
      case Threw(f) => Raised(f)
      case _ => if t.next.halted then Finished(t.next, after) else Session(t.next, after, rest)
  }

  /**
   * Every input instruction blocks exactly once: the first pass over it
   * finds the callback giving nothing, leaves the machine on the instruction
   * and aims the joystick; the next pass is given the aimed joystick and
   * executes the instruction as if it had never blocked.
   */
  lemma InputBlocksOnce(m: Vm.Machine, c: Cabinet, rest: nat)
    requires Vm.AwaitsInput(m) && !c.needsInput
    requires Vm.Addressable(m, Some(Sign(c.ball.0 - c.paddle.0)))
    ensures var j := Sign(c.ball.0 - c.paddle.0);
            var waiting := c.(needsInput := true, joystick := j);
            SessionStep(m, c, rest + 1) == SessionStep(m.(blocked := true), waiting, rest) &&
            Offer(m.(blocked := true), waiting) == (waiting.(needsInput := false), Some(j)) &&
            Vm.Exec(m.(blocked := true), Some(j)) == Vm.Exec(m, Some(j)) &&
            Vm.Exec(m, Some(j)).io == Consumed(j)
  {
    var j := Sign(c.ball.0 - c.paddle.0);
    Vm.StarvedInputBlocks(m);
    Vm.BlockAndRetry(m, j);
    Vm.CallbackOnlyOnInput(m, Some(j));
    assert SessionStep(m, c, rest + 1) == Settle(m, Offer(m, c), rest + 1);
    assert Session(m.(blocked := true), c.(needsInput := true, joystick := j), rest + 1)
        == SessionStep(m.(blocked := true), c.(needsInput := true, joystick := j), rest);
  }

  /** The loop's invariant: at most two outputs wait for a third, and the callback waits only at an input instruction. */
  ghost predicate Coherent(m: Vm.Machine, c: Cabinet) {
    |c.pending| < 3 && (c.needsInput ==> Vm.AwaitsInput(m))
  }

  /**
   * Every pass keeps the invariant, so a game that finishes leaves no
   * callback waiting and at most two outputs short of a triple.
   */
  lemma {:induction false} SessionCoherent(m: Vm.Machine, c: Cabinet, fuel: nat)
    requires Coherent(m, c)
    ensures Session(m, c, fuel).Finished? ==>
              var end := Session(m, c, fuel);
              end.machine.halted && Coherent(end.machine, end.cabinet) && !end.cabinet.needsInput
    decreases fuel
  {
    if fuel > 0 {
      assert Session(m, c, fuel) == SessionStep(m, c, fuel - 1) == Settle(m, Offer(m, c), fuel - 1);
      var offered := Offer(m, c);
      if Vm.Addressable(m, offered.1) {
        var t := Vm.Exec(m, offered.1);
        var after := Aim(if t.io.Emitted? then Record(offered.0, t.io.value) else offered.0);
        if Vm.AwaitsInput(m) && !c.needsInput {
          Vm.StarvedInputBlocks(m);
        } else if !Vm.AwaitsInput(m) {
          Vm.CallbackOnlyOnInput(m, offered.1);
        }
        assert Coherent(t.next, after);
        if !t.signal.Threw? && !t.next.halted {
          SessionCoherent(t.next, after, fuel - 1);
        }
      }
    }
  }

  /**
   * The cabinet of 13.2: the variables the callbacks close over, the screen
   * and the computer.
   */
  class Arcade {
    var outputValues: seq<int>
    var paddlePosition: (int, int)
    var ballPosition: (int, int)
    var score: int
    var needsInput: bool
    var joystick: int
    const screen: Plane
    const computer: Vm.IntCodeComputer

    ghost predicate Valid()
      reads screen, screen.domain, screen.range
    {
      screen.Valid()
    }

    /** The variables and the `value` of the screen's points. */
    ghost function State(): Cabinet
      reads this, screen, screen.Repr
    {
      Cabinet(outputValues, score, paddlePosition, ballPosition, needsInput, joystick, Values(screen.points, screen.Repr))
    }

    /** The run so far is on course to end in `target` within `left` more passes. */
    ghost predicate Heading(target: Outcome, left: nat)
      reads this, screen, screen.domain, screen.range, screen.Repr, computer
    {
      Valid() && Session(computer.State(), State(), left) == target
    }

    /** The start of 13.2: an empty screen, positions at the origin, score 0, no input awaited. */
    constructor ()
      ensures Valid() && fresh(screen) && fresh(screen.domain) && fresh(screen.range) && fresh(computer)
      ensures State() == Cabinet([], 0, (0, 0), (0, 0), false, 0, map[])
    {
      outputValues := [];
      paddlePosition, ballPosition := (0, 0), (0, 0);
      score := 0;
      needsInput, joystick := false, 0;
      screen := new Plane();
      computer := new Vm.IntCodeComputer();
    }

    /** The read callback. */
    method ReadHandler() returns (value: Option<int>)
      modifies this
      ensures (State(), value) == Poll(old(State()))
      ensures screen.points == old(screen.points)
    {
      needsInput := !needsInput;
      value := if !needsInput then Some(joystick) else None;
      assert unchanged(screen.Repr);
    }

    /** The write callback. */
    method WriteHandler(value: int)
      requires Valid()
      modifies this, screen, screen.domain, screen.range, screen.Repr
      ensures Valid()
      ensures State() == Record(old(State()), value)
      ensures fresh(screen.Repr - old(screen.Repr))
    {
      outputValues := outputValues + [value];
      if |outputValues| == 3 {
        var x, y, tile := outputValues[0], outputValues[1], outputValues[2];
        // the buffer is cleared before drawing; nothing reads it in between
        outputValues := [];
        if x == -1 && y == 0 {
          score := tile;
          assert unchanged(screen.Repr);
          assert screen.Repr - old(screen.Repr) == {};
        } else {
          assert unchanged(screen.Repr);
          DrawTile(x, y, tile);
        }
      } else {
        assert unchanged(screen.Repr);
      }
    }

    /** The body of the write callback for a triple that is not the score. */
    method DrawTile(x: int, y: int, tile: int)
      requires Valid()
      modifies this, screen, screen.domain, screen.range, screen.Repr
      ensures Valid()
      ensures State() == Place(old(State()), x, y, tile)
      ensures fresh(screen.Repr - old(screen.Repr))
    {
      // the positions do not depend on the screen, so they are noted before it is drawn on
      if tile == 3 {
        paddlePosition := (x, y);
      } else if tile == 4 {
        ballPosition := (x, y);
      }
      assert unchanged(screen.Repr);
      ShowTile(x, y, tile);
    }

    /** `screen.getPoint(x, y).value = tile`. */
    method ShowTile(x: int, y: int, tile: int)
      requires Valid()
      modifies screen, screen.domain, screen.range, screen.Repr
      ensures Valid()
      ensures State() == old(State()).(tiles := old(State()).tiles[(x, y) := Some(tile)])
      ensures fresh(screen.Repr - old(screen.Repr))
    {
      ghost var before := Values(screen.points, screen.Repr);
      var point := screen.GetPoint(x, y);
      SetValue(screen.points, screen.Repr, point, Some(tile));
      UpdateTwice(before, (x, y), None, Some(tile));
    }

    /** The loop body after `step()`: when the callback is waiting, aim the joystick. */
    method AimJoystick()
      modifies this
      ensures State() == Aim(old(State()))
      ensures screen.points == old(screen.points)
    {
      if needsInput {
        var difference := ballPosition.0 - paddlePosition.0;
        joystick := if difference < 0 then -1 else if difference > 0 then 1 else 0;
      }
    }

    /** `load(code)` on the computer, which leaves the variables and the screen as they are. */
    method LoadComputer(program: seq<int>)
      modifies computer
      ensures computer.State() == Vm.Loaded(program)
      ensures State() == old(State())
    {
      computer.Load(program);
    }

    /** `step()` of the computer, which leaves the variables and the screen as they are. */
    method StepComputer(input: Option<int>) returns (signal: Signal, io: Io)
      requires Vm.Addressable(computer.State(), input)
      modifies computer
      ensures Vm.Exec(old(computer.State()), input) == Vm.Transition(computer.State(), signal, io)
      ensures State() == old(State())
    {
      signal, io := computer.Step(input);
    }

    /** The start of `step()`: the read callback runs when the instruction is an input. */
    method Prompt() returns (input: Option<int>)
      modifies this
      ensures (State(), input) == Offer(computer.State(), old(State()))
      ensures screen.points == old(screen.points)
    {
      input := None;
      if Vm.AwaitsInput(computer.State()) {
        input := ReadHandler();
      }
    }

    /** The rest of `step()`, then the steering. */
    method Perform(input: Option<int>) returns (signal: Signal, io: Io)
      requires Valid() && Vm.Addressable(computer.State(), input)
      modifies this, screen, screen.domain, screen.range, screen.Repr, computer
      ensures Valid()
      ensures Vm.Exec(old(computer.State()), input) == Vm.Transition(computer.State(), signal, io)
      ensures State() == Aim(if io.Emitted? then Record(old(State()), io.value) else old(State()))
      ensures fresh(screen.Repr - old(screen.Repr))
    {
      signal, io := StepComputer(input);
      if io.Emitted? {
        WriteHandler(io.value);
      }
      AimJoystick();
    }

    /** One pass of the loop; `stop` is true when this pass ends the game. */
    method Tick(ghost target: Outcome, left: nat) returns (stop: bool)
      requires Heading(target, left) && left > 0
      modifies this, screen, screen.domain, screen.range, screen.Repr, computer
      ensures Valid()
      ensures stop && target.Finished? ==> computer.State() == target.machine && State() == target.cabinet
      ensures !stop ==> Heading(target, left - 1)
      ensures fresh(screen.Repr - old(screen.Repr))
    {
      ghost var m, c := computer.State(), State();
      assert Session(m, c, left) == SessionStep(m, c, left - 1) == Settle(m, Offer(m, c), left - 1);
      var input := Prompt();
      if !Vm.Addressable(computer.State(), input) {
        return true;
      }
      var signal, io := Perform(input);
      stop := signal.Threw? || !computer.IsRunning();
    }

    /**
     * The `do … while (computer2.isRunning())` loop, with at most `left`
     * passes; a game the model says finishes leaves the model's state.
     */
    method Continue(ghost target: Outcome, left: nat)
      requires Heading(target, left)
      modifies this, screen, screen.domain, screen.range, screen.Repr, computer
      ensures Valid()
      ensures target.Finished? ==> computer.State() == target.machine && State() == target.cabinet
    {
      var rest := left;
      var stop := false;
      while !stop && rest > 0
        invariant Valid()
        invariant !stop ==> Heading(target, rest)
        invariant stop && target.Finished? ==> computer.State() == target.machine && State() == target.cabinet
        invariant fresh(screen.Repr - old(screen.Repr))
        decreases rest
      {
        stop := Tick(target, rest);
        rest := rest - 1;
      }
      if !stop {
        assert target == Session(computer.State(), State(), 0);
      }
    }

    /**
     * 13.2: loads the program in free play and runs the game loop, then
     * reads the score. When the model's game finishes, so does this one,
     * with the model's machine and cabinet, and the score is the model's.
     */
    method Play(program: seq<int>, fuel: nat) returns (finalScore: int)
      requires Valid()
      modifies this, screen, screen.domain, screen.range, screen.Repr, computer
      ensures Valid()
      ensures finalScore == State().score
      ensures var target := Session(Vm.Loaded(FreePlay(program)), old(State()), fuel);
              target.Finished? ==> computer.State() == target.machine && State() == target.cabinet &&
                                   finalScore == target.cabinet.score
    {
      var code := if |program| == 0 then [2] else program[0 := 2];
      ghost var target := Session(Vm.Loaded(code), State(), fuel);
      LoadComputer(code);
      Continue(target, fuel);
      finalScore := score;
    }
  }
}
