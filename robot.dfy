/**
 * The hull-painting robot of AOC19-11.js: an extended Intcode machine whose
 * read callback reports the colour of the cell under the robot (0 when the
 * cell was never painted) and whose outputs alternate between a colour to
 * paint the cell and a turn (0 left, anything else right) followed by one
 * step forward.
 *
 * `Sense`, `Respond` and `Paint` are the robot as functions of its pose and of
 * the colours of the grid's points; the class `Robot` holds the source's
 * variables and a `Plane`, and its handlers and run are proved to perform
 * exactly those functions.
 */
module HullRobot {
  import opened Wrappers
  import opened Decoder
  import opened Signals
  import opened Planes
  import Vm = ExtendedVm

  /** Heading (0 up, 1 right, 2 down, 3 left), position, and whether the next output is a colour. */
  datatype Pose = Pose(direction: int, x: int, y: int, outputIsColor: bool)

  /** The robot and the grid's colour property at every coordinate a point was created for. */
  datatype Hull = Hull(pose: Pose, colors: map<(int, int), Option<int>>)

  /**
   * The new heading after a turn output: 0 turns left, any other value turns
   * right, with JavaScript's remainder brought back to 0..3.
   */
  function Turn(direction: int, value: int): (d: int)
    ensures 0 <= d < 4
    ensures d == (direction + (if value == 0 then 3 else 1)) % 4
  {
    var turned := JsRem(direction + (if value == 0 then -1 else 1), 4);
    RemainderByFour(direction + (if value == 0 then -1 else 1));
    if turned < 0 then turned + 4 else turned
  }

  /** JavaScript's remainder by 4, with 4 added when it is negative, is the Euclidean remainder. */
  lemma RemainderByFour(a: int)
    ensures (if JsRem(a, 4) < 0 then JsRem(a, 4) + 4 else JsRem(a, 4)) == a % 4
  {
    if a < 0 {
      var s := (-a) % 4;
      var q := (-a) / 4;
      assert -a == 4 * q + s;
      if s == 0 {
        assert a == 4 * (-q);
      } else {
        assert a == 4 * (-q - 1) + (4 - s);
      }
    }
  }

  /** One unit forward along a heading: y grows upwards, x to the right. */
  function Move(x: int, y: int, direction: int): (p: (int, int))
    ensures 0 <= direction < 4 ==>
              (p.0 == x && (p.1 == y + 1 || p.1 == y - 1)) || (p.1 == y && (p.0 == x + 1 || p.0 == x - 1))
  {
    if direction == 0 then (x, y + 1)
    else if direction == 2 then (x, y - 1)
    else if direction == 1 then (x + 1, y)
    else if direction == 3 then (x - 1, y)
    else (x, y)
  }

  /** A left turn undoes a right turn and the other way round. */
  lemma TurnsCancel(direction: int)
    requires 0 <= direction < 4
    ensures Turn(Turn(direction, 0), 1) == direction
    ensures Turn(Turn(direction, 1), 0) == direction
  {
  }

  /** Turning right twice faces the other way, and a step that way undoes a step the first way. */
  lemma AboutTurn(x: int, y: int, direction: int)
    requires 0 <= direction < 4
    ensures var back := Turn(Turn(direction, 1), 1);
            back == (direction + 2) % 4 &&
            Move(Move(x, y, direction).0, Move(x, y, direction).1, back) == (x, y)
  {
  }

  /**
   * The read handler: `getPoint` at the robot's cell, which creates a point
   * there on the first visit, then the point's colour, or 0 when it has none.
   */
  function Sense(h: Hull): (Hull, int) {
    var cell := (h.pose.x, h.pose.y);
    var colors := if cell in h.colors then h.colors else h.colors[cell := None];
    (h.(colors := colors), if colors[cell].Some? then colors[cell].value else 0)
  }

  /**
   * The write handler: a colour output paints the robot's cell; a turn
   * output turns and moves one unit along the new heading. Either way the
   * next output is of the other kind.
   */
  function Respond(h: Hull, value: int): Hull {
    var p := h.pose;
    if p.outputIsColor then
      Hull(p.(outputIsColor := false), h.colors[(p.x, p.y) := Some(value)])
    else
      var d := Turn(p.direction, value);
      var cell := Move(p.x, p.y, d);
      Hull(Pose(d, cell.0, cell.1, true), h.colors)
  }

  /**
   * The read handler sees what the write handler painted: after a colour
   * output, the cell reports that colour, whatever it was before, and
   * sensing creates nothing more.
   */
  lemma SensePainted(h: Hull, value: int)
    requires h.pose.outputIsColor
    ensures Sense(Respond(h, value)) == (Respond(h, value), value)
  {
  }

  /**
   * Sensing is the identity on the hull once the cell has a point: asking
   * twice gives the same colour and creates nothing more.
   */
  lemma SenseTwice(h: Hull)
    ensures Sense(Sense(h).0) == Sense(h)
    ensures Sense(h).0.colors.Keys == h.colors.Keys + {(h.pose.x, h.pose.y)}
    ensures forall c :: c in h.colors ==> Sense(h).0.colors[c] == h.colors[c]
    ensures Sense(h).1 == if (h.pose.x, h.pose.y) in h.colors && h.colors[(h.pose.x, h.pose.y)].Some?
                          then h.colors[(h.pose.x, h.pose.y)].value else 0
  {
  }

  /** The write handler applied to a stream of outputs, in order. */
  function Replay(h: Hull, outputs: seq<int>): Hull
    decreases |outputs|
  {
    if outputs == [] then h else Replay(Respond(h, outputs[0]), outputs[1..])
  }

  /**
   * The outputs strictly alternate between colour and turn: after an even
   * number of them the next is of the same kind as the first, after an odd
   * number of the other kind.
   */
  lemma {:induction false} ReplayAlternates(h: Hull, outputs: seq<int>)
    ensures Replay(h, outputs).pose.outputIsColor == (h.pose.outputIsColor <==> |outputs| % 2 == 0)
    decreases |outputs|
  {
    if outputs != [] {
      ReplayAlternates(Respond(h, outputs[0]), outputs[1..]);
    }
  }

  /**
   * Whatever the outputs, the heading stays in 0..3, the robot stays within
   * one unit per turn output of where it was, and no coordinate loses its point.
   */
  lemma {:induction false} ReplayKeepsHeading(h: Hull, outputs: seq<int>)
    requires 0 <= h.pose.direction < 4
    ensures 0 <= Replay(h, outputs).pose.direction < 4
    ensures h.colors.Keys <= Replay(h, outputs).colors.Keys
    decreases |outputs|
  {
    if outputs != [] {
      ReplayKeepsHeading(Respond(h, outputs[0]), outputs[1..]);
    }
  }

  /** How `computer.run(program)` ends for the robot. */
  datatype Outcome =
    | Returned(machine: Vm.Machine, hull: Hull) // `step` returned false
    | Raised(fault: Fault)     // `step` threw
    | Unmodelled               // the next step would resolve a negative address
    | OutOfFuel                // the step budget ran out

  /** What the read callback gives the next step, with the hull after the call: only an input instruction calls it. */
  function Offer(m: Vm.Machine, h: Hull): (Hull, Option<int>) {
    if Vm.AwaitsInput(m) then (Sense(h).0, Some(Sense(h).1)) else (h, None)
  }

  /** `while (this.step());` with the robot's handlers, for at most `fuel` steps. */
  function Paint(m: Vm.Machine, h: Hull, fuel: nat): Outcome
    decreases fuel, 0
  {
    if fuel == 0 then OutOfFuel else PaintStep(m, h, fuel - 1)
  }

  /** One step of `Paint` with `rest` steps left after it. */
  function PaintStep(m: Vm.Machine, h: Hull, rest: nat): Outcome
    decreases rest, 2
  {
    Settle(m, Offer(m, h), rest)
  }

  /** The instruction and the write handler, once the read handler has made its `offered` input. */
  function Settle(m: Vm.Machine, offered: (Hull, Option<int>), rest: nat): Outcome
    decreases rest, 1
  {
    if !Vm.Addressable(m, offered.1) then Unmodelled
    else
      var t := Vm.Exec(m, offered.1);
      var after := if t.io.Emitted? then Respond(offered.0, t.io.value) else offered.0;
      match t.signal
      case Threw(f) => Raised(f)
      case CannotContinue => Returned(t.next, after)
      case CanContinue => Paint(t.next, after, rest)
  }

  /**
   * The robot's read callback always gives a number, so an input
   * instruction never blocks: a run that returns has halted, and `run`
   * returns true.
   */
  lemma {:induction false} PaintReturnsHalted(m: Vm.Machine, h: Hull, fuel: nat)
    requires Paint(m, h, fuel).Returned?
    ensures Paint(m, h, fuel).machine.halted
    decreases fuel
  {
    assert Paint(m, h, fuel) == PaintStep(m, h, fuel - 1) == Settle(m, Offer(m, h), fuel - 1);
    var offered := Offer(m, h);
    var t := Vm.Exec(m, offered.1);
    Vm.CallbackOnlyOnInput(m, offered.1);
    if t.signal == CannotContinue {
      Vm.CannotContinueMeansHaltedOrBlocked(m, offered.1);
    } else {
      var after := if t.io.Emitted? then Respond(offered.0, t.io.value) else offered.0;
      PaintReturnsHalted(t.next, after, fuel - 1);
    }
  }

  /** A whole run keeps the heading in 0..3 and never removes a point from the grid. */
  lemma {:induction false} PaintKeepsHeading(m: Vm.Machine, h: Hull, fuel: nat)
    requires 0 <= h.pose.direction < 4
    requires Paint(m, h, fuel).Returned?
    ensures 0 <= Paint(m, h, fuel).hull.pose.direction < 4
    ensures h.colors.Keys <= Paint(m, h, fuel).hull.colors.Keys
    decreases fuel
  {
    assert Paint(m, h, fuel) == PaintStep(m, h, fuel - 1) == Settle(m, Offer(m, h), fuel - 1);
    var offered := Offer(m, h);
    var t := Vm.Exec(m, offered.1);
    var after := if t.io.Emitted? then Respond(offered.0, t.io.value) else offered.0;
    assert 0 <= after.pose.direction < 4 && h.colors.Keys <= after.colors.Keys;
    if t.signal == CanContinue {
      PaintKeepsHeading(t.next, after, fuel - 1);
    }
  }

  /**
   * The variables `direction`, `x`, `y`, `grid` and `outputIsColor` with the
   * two handlers that close over them, and the computer they are given to.
   */
  class Robot {
    var direction: int
    var x: int
    var y: int
    var outputIsColor: bool
    const grid: Plane
    const computer: Vm.IntCodeComputer

    ghost predicate Valid()
      reads grid, grid.domain, grid.range
    {
      grid.Valid()
    }

    /** The robot's pose and the grid's colours. */
    ghost function State(): Hull
      reads this, grid, grid.Repr
    {
      Hull(Pose(direction, x, y, outputIsColor), Colors(grid.points, grid.Repr))
    }

    /** The run so far is on course to end in `target` within `left` more steps. */
    ghost predicate Heading(target: Outcome, left: nat)
      reads this, grid, grid.domain, grid.range, grid.Repr, computer
    {
      Valid() && Paint(computer.State(), State(), left) == target
    }

    /** The start of 11.1: facing up at the origin, an empty grid, a colour output first. */
    constructor ()
      ensures Valid() && fresh(grid) && fresh(grid.domain) && fresh(grid.range) && fresh(computer)
      ensures State() == Hull(Pose(0, 0, 0, true), map[])
    {
      direction, x, y := 0, 0, 0;
      outputIsColor := true;
      grid := new Plane();
      computer := new Vm.IntCodeComputer();
    }

    /** The start of 11.2: `grid.getPoint(0,0).color = 1`, the origin painted white. */
    method StartOnWhite()
      requires Valid()
      modifies grid, grid.domain, grid.range, grid.Repr
      ensures Valid()
      ensures State() == old(State()).(colors := old(State()).colors[(0, 0) := Some(1)])
      ensures fresh(grid.Repr - old(grid.Repr))
    {
      ghost var before := Colors(grid.points, grid.Repr);
      var point := grid.GetPoint(0, 0);
      ghost var found := Colors(grid.points, grid.Repr);
      SetColor(grid.points, grid.Repr, point, Some(1));
      UpdateTwice(before, (0, 0), None, Some(1));
    }

    /** The read callback: the colour of the robot's cell, or 0 when it was never painted. */
    method ReadHandler() returns (color: int)
      requires Valid()
      modifies grid, grid.domain, grid.range
      ensures Valid()
      ensures (State(), color) == Sense(old(State()))
      ensures fresh(grid.Repr - old(grid.Repr))
    {
      PropertiesFind(grid.points, grid.Repr, x, y);
      var point := grid.GetPoint(x, y);
      PropertiesFind(grid.points, grid.Repr, x, y);
      color := if point.color.Some? then point.color.value else 0;
    }

    /** The write callback: paint the cell, or turn and move, then expect the other kind of output. */
    method WriteHandler(value: int)
      requires Valid()
      modifies this, grid, grid.domain, grid.range, grid.Repr
      ensures Valid()
      ensures State() == Respond(old(State()), value)
      ensures fresh(grid.Repr - old(grid.Repr))
    {
      ghost var h := State();
      if outputIsColor {
        PaintCell(value);
        outputIsColor := false;
        assert State() == Hull(h.pose.(outputIsColor := false), h.colors[(x, y) := Some(value)]);
      } else {
        TurnAndMove(value);
        outputIsColor := true;
        assert Colors(grid.points, grid.Repr) == h.colors;
      }
    }

    /** `grid.getPoint(x, y).color = value`. */
    method PaintCell(value: int)
      requires Valid()
      modifies grid, grid.domain, grid.range, grid.Repr
      ensures Valid()
      ensures Colors(grid.points, grid.Repr) == old(Colors(grid.points, grid.Repr))[(x, y) := Some(value)]
      ensures fresh(grid.Repr - old(grid.Repr))
    {
      var cell := (x, y);
      ghost var before := Colors(grid.points, grid.Repr);
      var point := grid.GetPoint(cell.0, cell.1);
      ghost var found := Colors(grid.points, grid.Repr);
      SetColor(grid.points, grid.Repr, point, Some(value));
      UpdateTwice(before, cell, None, Some(value));
    }

    /** The turn branch of the write callback: the new heading, then one unit along it. */
    method TurnAndMove(value: int)
      modifies this
      ensures direction == Turn(old(direction), value)
      ensures (x, y) == Move(old(x), old(y), direction)
      ensures outputIsColor == old(outputIsColor)
    {
      direction := JsRem(direction + (if value == 0 then -1 else 1), 4);
      if direction < 0 {
        direction := direction + 4;
      }
      if direction == 0 {
        y := y + 1;
      } else if direction == 2 {
        y := y - 1;
      } else if direction == 1 {
        x := x + 1;
      } else if direction == 3 {
        x := x - 1;
      }
    }

    /** `load(program)` on the computer, which leaves the robot and its grid as they are. */
    method LoadComputer(program: seq<int>)
      modifies computer
      ensures computer.State() == Vm.Loaded(program)
      ensures State() == old(State())
    {
      computer.Load(program);
    }

    /** `step()` of the computer, which leaves the robot and its grid as they are. */
    method StepComputer(input: Option<int>) returns (signal: Signal, io: Io)
      requires Vm.Addressable(computer.State(), input)
      modifies computer
      ensures Vm.Exec(old(computer.State()), input) == Vm.Transition(computer.State(), signal, io)
      ensures State() == old(State())
    {
      signal, io := computer.Step(input);
    }

    /** The start of `step()`: the read handler runs when the instruction is an input. */
    method Prompt() returns (input: Option<int>)
      requires Valid()
      modifies grid, grid.domain, grid.range
      ensures Valid()
      ensures (State(), input) == Offer(computer.State(), old(State()))
      ensures fresh(grid.Repr - old(grid.Repr))
    {
      input := None;
      if Vm.AwaitsInput(computer.State()) {
        var color := ReadHandler();
        input := Some(color);
      }
    }

    /** The rest of `step()`: one instruction, then the write handler on an output. */
    method Perform(input: Option<int>) returns (signal: Signal, io: Io)
      requires Valid() && Vm.Addressable(computer.State(), input)
      modifies this, grid, grid.domain, grid.range, grid.Repr, computer
      ensures Valid()
      ensures Vm.Exec(old(computer.State()), input) == Vm.Transition(computer.State(), signal, io)
      ensures State() == if io.Emitted? then Respond(old(State()), io.value) else old(State())
      ensures fresh(grid.Repr - old(grid.Repr))
    {
      signal, io := StepComputer(input);
      if io.Emitted? {
        WriteHandler(io.value);
      }
    }

    /**
     * One `step()` of the computer with the robot's handlers; `stop` is
     * true when this step ends the run.
     */
    method Tick(ghost target: Outcome, left: nat) returns (stop: bool)
      requires Heading(target, left) && left > 0
      modifies this, grid, grid.domain, grid.range, grid.Repr, computer
      ensures Valid()
      ensures stop && target.Returned? ==> computer.State() == target.machine && State() == target.hull
      ensures !stop ==> Heading(target, left - 1)
      ensures fresh(grid.Repr - old(grid.Repr))
    {
      ghost var m, h := computer.State(), State();
      assert Paint(m, h, left) == PaintStep(m, h, left - 1) == Settle(m, Offer(m, h), left - 1);
      var input := Prompt();
      if !Vm.Addressable(computer.State(), input) {
        return true;
      }
      var signal, io := Perform(input);
      stop := !signal.CanContinue?;
    }

    /**
     * The loop of `computer.run`: steps until `step` returns false, with at
     * most `left` steps; a run the model says returns leaves the model's state.
     */
    method Continue(ghost target: Outcome, left: nat)
      requires Heading(target, left)
      modifies this, grid, grid.domain, grid.range, grid.Repr, computer
      ensures Valid()
      ensures target.Returned? ==> computer.State() == target.machine && State() == target.hull
    {
      var rest := left;
      var stop := false;
      while !stop && rest > 0
        invariant Valid()
        invariant !stop ==> Heading(target, rest)
        invariant stop && target.Returned? ==> computer.State() == target.machine && State() == target.hull
        invariant fresh(grid.Repr - old(grid.Repr))
        decreases rest
      {
        stop := Tick(target, rest);
        rest := rest - 1;
      }
      if !stop {
        assert target == Paint(computer.State(), State(), 0);
      }
    }

    /**
     * `computer.run(program)`: loads the program and steps until `step`
     * returns false; returns whether the machine halted. `fuel` bounds the
     * number of steps. When the model's run returns, so does this one, with
     * the model's machine and hull, and it reports completion.
     */
    method Run(program: seq<int>, fuel: nat) returns (completed: bool)
      requires Valid()
      modifies this, grid, grid.domain, grid.range, grid.Repr, computer
      ensures Valid()
      ensures completed <==> computer.State().halted
      ensures var target := Paint(Vm.Loaded(program), old(State()), fuel);
              target.Returned? ==> completed && computer.State() == target.machine && State() == target.hull
    {
      ghost var target := Paint(Vm.Loaded(program), State(), fuel);
      LoadComputer(program);
      Continue(target, fuel);
      completed := !computer.IsRunning();
      if target.Returned? {
        PaintReturnsHalted(Vm.Loaded(program), old(State()), fuel);
      }
    }
  }
}
