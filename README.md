# Intcode machines and puzzle solvers of AOC2019, in Dafny

This project models the JavaScript solutions of an Advent of Code 2019
repository and proves properties of the model:

- **Intcode virtual machine**, in three generations.
  - The batch machine of AOC19-05.js (`BatchVm`) runs a program to the end with an input and an output callback. Its memory is an `array<int>` that the loop updates in place.
  - The suspendable machine of AOC19-07.js (`SuspendableVm`) executes one instruction per `step()`. An input instruction whose read callback gives `null`/`undefined` rolls the pointer back and reports that the machine cannot continue. The machine halts once the pointer leaves the memory.
  - The extended machine of AOC19-13.js and AOC19-11.js (`ExtendedVm`) adds a sparse overflow memory that reads as 0 until written, a relative base and opcode 9. The two files hold the same class text, so it is modelled once.
  - Each machine is a `class` whose methods update its fields. Each method is proved against a pure transition function (`Exec`) and a bounded run function (`Drive`/`Execute`). The lemmas are stated about those functions.
- **Shared decoding** (`Decoder`): the opcode and the addressing modes of an instruction word, and the parameter-count table.
- **Amplifier ring** of AOC19-07.js (`Amplifiers`, `Permutations`): the pure `permutate`, the `Amplifier` class with its read and write callbacks, the ring of five amplifiers, and the search over phase orders.
- **Plane** (`Planes`): the sparse grid of AOC19-11.js/AOC19-13.js. Its memoised `getPoint` inserts into nested Maps, appends to `data` and widens the `domain`/`range` arrays.
- **Hull-painting robot** of AOC19-11.js (`HullRobot`): the callbacks that paint, turn and move the robot on a `Plane`, and the run of the machine with them.
- **Arcade cabinet** of AOC19-13.js (`Breakout`): the callbacks that draw tiles and keep the score, the read callback that alternates between blocking and giving the joystick, and the game loop that steers the paddle.
- **Reaction list** of AOC19-14.js (`Reactions`, `ReactionSystem`):
  - `Node` and `System`;
  - parsing the list text and printing it back;
  - the recursive ORE resolver that keeps a surplus Map;
  - the search for the most FUEL a given amount of ORE makes.
- **Moons** of AOC19-12.js (`Moons`): moon records updated in place by the gravity and velocity passes, their energies, and the loop that looks for a repeated state.
- **Password rules** of AOC19-04.js (`Passwords`): the two digit scans and the loops that collect the accepted numbers of a range.

`Wrappers`, `Signals` and `Text` hold shared helpers:

- `Option`;
- a step's signal and callback use;
- JavaScript's `trim`, `split`, `join`, `parseInt` and integer printing.

Callbacks are not stored as closures.

- `Step` is given what the read callback would return (`Option<int>`, None for `null`/`undefined`) and reports through an `Io` value which callback it called.
- The caller then applies the callback's effect: `Amplifier.Answer`, `Robot.Perform` and `Arcade.Perform` do this on their objects.

A run that JavaScript might loop on for ever takes a `fuel` (or `depth`, `rounds`) bound. Running out of it is a separate outcome (`OutOfFuel`, `Exhausted`, `Unfinished`) about which nothing else is claimed.

## Model

| member | source | states |
|---|---|---|
| Decoder.JsRem | AOC19-13.js:147-150 | JavaScript's `%` by a positive divisor: Euclidean for a non-negative dividend, in (-b, 0] for a negative one |
| Decoder.OpCode | AOC19-13.js:147-150 | a non-negative word's opcode is its two low decimal digits; a negative word gives an opcode of at most 0, which no instruction has |
| Decoder.ParameterModes | AOC19-13.js:175-187 | the loop yields three modes, mode k being decimal digit k+2 of the word |
| Decoder.DecodeEncode | AOC19-13.js:147-187 | an opcode below 100 and three single-digit modes come back unchanged from the word they form |
| Decoder.ParameterCount | AOC19-13.js:152-173 | 0 parameters for 99, 1 for 3/4/9, 2 for 5/6, 3 for 1/2/7/8, each an if-and-only-if; every other opcode throws (None) |
| Decoder.ParameterCountNoRelative | AOC19-07.js:162-182 | the same table, except that opcode 9 throws as well |
| ExtendedVm.Loaded | AOC19-13.js:14-22 | `load` leaves memory = program, an empty overflow store, pointer 0, relative base 0, not blocked, and halted exactly when the program is empty |
| ExtendedVm.Read | AOC19-13.js:199-216 | mode 1 gives the parameter itself; an address at or past the memory's end that was never written reads 0 |
| ExtendedVm.Write | AOC19-13.js:218-229 | the memory keeps its length, the resolved address holds the value, every other address keeps its value, and the registers are unchanged |
| ExtendedVm.WriteIgnoresPointer | AOC19-13.js:218-229 | where the pointer stands does not affect a write |
| ExtendedVm.ReadAfterWrite | AOC19-13.js:199-229 | reading back a position or relative cell just written gives the value written; reading another address gives what it gave before |
| ExtendedVm.HaltedStepIsInert | AOC19-13.js:28-31 | a step on a halted machine returns false, calls no callback and changes no field |
| ExtendedVm.HaltInstruction | AOC19-13.js:37-41 | opcode 99 sets halted, returns false and leaves the pointer on the instruction; any further step is inert |
| ExtendedVm.BlockAndRetry | AOC19-13.js:51-62 | with no input, the step leaves pointer and memory, sets blocked and returns false; blocking again changes nothing; the retry with a value runs as if it had never blocked, clears blocked and continues |
| ExtendedVm.PointerAdvance | AOC19-13.js:46-131 | after opcodes 1-4 and 7-9 the pointer moves past the opcode and its parameters, and the step returns true |
| ExtendedVm.JumpTarget | AOC19-13.js:75-91 | a jump sets the pointer to its resolved target exactly when taken (5: value ≠ 0, 6: value = 0); otherwise the pointer moves on by 3 |
| ExtendedVm.CompareStoresFlag | AOC19-13.js:114-127 | opcodes 7 and 8 store exactly 1 or 0 at their destination: 1 when the first operand is less than (7) or equal to (8) the second |
| ExtendedVm.AdjustRelativeBase | AOC19-13.js:68-71 | opcode 9 adds its resolved operand to the relative base and changes no memory; mode 2 then reads and writes parameter + relative base |
| ExtendedVm.CallbackOnlyOnInput | AOC19-13.js:46-72 | only an input instruction calls the read callback, and the answer does not affect any other step; an input instruction given a value consumes it |
| ExtendedVm.StarvedInputBlocks | AOC19-13.js:51-59 | an input instruction given nothing blocks, and the blocked machine is still on the same input instruction |
| ExtendedVm.DriveAdvance | AOC19-13.js:135-140 | one step of `while (this.step())`: a throw ends the run with that fault, false ends it with the step's state, and true continues from it |
| ExtendedVm.CannotContinueMeansHaltedOrBlocked | AOC19-13.js:26-132 | a step returns false only when the machine halted, or when it blocked on an input with no value |
| ExtendedVm.DriveStopsHaltedOrBlocked | AOC19-11.js:135-140 | a run returns only with the machine halted, or blocked with every queued input read |
| ExtendedVm.LargeProduct | AOC19-13.js:107-113 | the program multiplying two 8-digit immediates returns and outputs the exact 16-digit product |
| ExtendedVm.LargeOutput | AOC19-13.js:64-67 | an immediate operand of 16 digits is output unchanged |
| ExtendedVm.IntCodeComputer.constructor | AOC19-13.js:7-12 | a new computer is halted until a program is loaded |
| ExtendedVm.IntCodeComputer.Load | AOC19-13.js:14-22 | the fields become the `Loaded` state of the program |
| ExtendedVm.IntCodeComputer.IsRunning | AOC19-13.js:142-145 | true exactly when the machine is not halted |
| ExtendedVm.IntCodeComputer.ReadOperand | AOC19-13.js:199-216 | `_read` on the fields is the `Read` of the current state |
| ExtendedVm.IntCodeComputer.WriteOperand | AOC19-13.js:218-229 | `_write` updates the fields to the `Write` of the old state |
| ExtendedVm.IntCodeComputer.Step | AOC19-13.js:26-132 | the new fields, the result and the callback used are those of `Exec` on the old state |
| ExtendedVm.IntCodeComputer.StepUnary | AOC19-13.js:46-72 | the unary branch (input, output, relative base) updates the fields as `Unary` says |
| ExtendedVm.IntCodeComputer.StepJump | AOC19-13.js:74-91 | the binary branch updates the pointer as `Jump` says and returns early on a taken jump |
| ExtendedVm.IntCodeComputer.StepTernary | AOC19-13.js:93-131 | the ternary branch stores the sum, product or flag as `Ternary` says |
| ExtendedVm.IntCodeComputer.Pump | AOC19-13.js:138 | one pass of the run loop keeps the run on course to the run `Drive` predicts, or ends it there |
| ExtendedVm.IntCodeComputer.Run | AOC19-13.js:135-140 | `run(program)` ends as `Drive` from the loaded program says; when it returns, the fields are the final machine, and the result is true exactly when that machine halted |
| SuspendableVm.Loaded | AOC19-07.js:27-33 | memory = program, pointer 0, not blocked, and halted exactly when the program is empty |
| SuspendableVm.Advance | AOC19-07.js:133-141 | the generic end of a step: the pointer moves on, and the machine halts and returns false exactly when the pointer has left the memory |
| SuspendableVm.HaltedStepIsInert | AOC19-07.js:39-42 | a step on a halted machine returns false and changes nothing |
| SuspendableVm.FetchOutsideMemoryThrows | AOC19-07.js:44-54 | a pointer outside the memory fetches undefined: the step throws 'Unsupported opcode NaN' and changes nothing |
| SuspendableVm.UnsupportedOpcodeThrows | AOC19-07.js:162-182 | opcode 9, and every opcode outside 1-8 and 99, throws and changes nothing |
| SuspendableVm.HaltInstruction | AOC19-07.js:47-51 | opcode 99 sets halted, returns false and leaves the pointer in place |
| SuspendableVm.BlockAndRetry | AOC19-07.js:62-73 | with no input, the step leaves the pointer on the instruction, sets blocked and writes nothing; the retry with a value runs as if it had never blocked, consumes it and clears blocked |
| SuspendableVm.IoAddressesByPosition | AOC19-07.js:58-78 | whatever their mode digit, opcode 3 stores at the index its parameter holds and opcode 4 emits the cell at that index |
| SuspendableVm.EndOfMemoryHalts | AOC19-07.js:133-139 | after any instruction but a taken jump, the pointer moves past the instruction, and the step halts and returns false exactly when the pointer has left the memory |
| SuspendableVm.TakenJump | AOC19-07.js:87-96 | a taken jump sets the pointer to its target, honouring mode 1, and returns true with no end-of-memory check |
| SuspendableVm.GetValueAt | AOC19-07.js:157-160 | undefined exactly outside [0, memory.length), and the cell otherwise |
| SuspendableVm.InputUse | AOC19-07.js:62-78 | a consumed value is exactly the read callback's answer, and a starved step got no answer |
| SuspendableVm.DriveAdvance | AOC19-07.js:145-150 | one step of `while (this.step())`: a throw ends the run, false ends it with the step's state, and true continues |
| SuspendableVm.IntCodeComputer.constructor | AOC19-07.js:20-25 | a new computer is halted until a program is loaded |
| SuspendableVm.IntCodeComputer.Load | AOC19-07.js:27-33 | the fields become the `Loaded` state |
| SuspendableVm.IntCodeComputer.IsRunning | AOC19-07.js:152-155 | true exactly when not halted |
| SuspendableVm.IntCodeComputer.GetValue | AOC19-07.js:157-160 | `getValueAt` on the fields |
| SuspendableVm.IntCodeComputer.GetParameterModes | AOC19-07.js:184-195 | three modes, mode k being decimal digit k of the value |
| SuspendableVm.IntCodeComputer.GetParameterValue | AOC19-07.js:199-202 | mode 1 gives the parameter, any other mode the cell at that index |
| SuspendableVm.IntCodeComputer.Finish | AOC19-07.js:133-141 | the increment and end-of-memory check update the fields as `Advance` says |
| SuspendableVm.IntCodeComputer.Step | AOC19-07.js:37-142 | the new fields, the result and the callback used are those of `Exec` |
| SuspendableVm.IntCodeComputer.StepUnary | AOC19-07.js:57-79 | the unary branch as `Unary` says |
| SuspendableVm.IntCodeComputer.StepJump | AOC19-07.js:81-98 | the binary branch as `Jump` says |
| SuspendableVm.IntCodeComputer.StepTernary | AOC19-07.js:100-131 | the ternary branch as `Ternary` says |
| SuspendableVm.IntCodeComputer.Pump | AOC19-07.js:148 | one pass of the run loop keeps the run on course to the run `Drive` predicts, or ends it there |
| SuspendableVm.IntCodeComputer.Run | AOC19-07.js:145-150 | `run(program)` ends as `Drive` says; when it returns, the fields are its final machine, and the result is true exactly when that machine halted |
| Amplifiers.PollsInOrder | AOC19-07.js:244-258 | called repeatedly with nothing added, the read callback gives the phase once, then the buffered values in FIFO order, then null on every later call |
| Amplifiers.PollTakesHead | AOC19-07.js:244-258 | each call gives the head of the pending inputs and removes it, and gives nothing when none is pending |
| Amplifiers.LeaveIsPolling | AOC19-07.js:244-258 | the callback's state with only the last pending inputs left unread (`Leave`) is its state after one call per input taken: the phase counts as given once anything was taken, and the buffer holds what is left |
| Amplifiers.Feed | AOC19-07.js:279-285 | values added to the buffer queue after every input already pending; the phase is unchanged |
| Amplifiers.Amplifier.constructor | AOC19-07.js:230-242 | the machine is loaded with the program; no phase has been given, the buffer is empty and there is no consumer |
| Amplifiers.Amplifier.ReadHandler | AOC19-07.js:244-258 | `_readHandler` gives and removes what `Poll` says |
| Amplifiers.Amplifier.AddInput | AOC19-07.js:279-285 | appends a value, and ignores null/undefined |
| Amplifiers.Amplifier.WriteHandler | AOC19-07.js:260-266 | appends the value to the consumer's buffer when there is a consumer |
| Amplifiers.Amplifier.IsRunning | AOC19-07.js:268-271 | true exactly when its machine is not halted |
| Amplifiers.Amplifier.Answer | AOC19-07.js:244-266 | a consumed input leaves the pending inputs, the callback's state becomes `Leave` of the old one at what is left, and an output is appended to the consumer's buffer |
| Amplifiers.Amplifier.StepWithHandlers | AOC19-07.js:237-266 | one `step()` with the bound callbacks: the machine moves as `Exec` says; the pending inputs and the consumer's buffer change as the callbacks do |
| Amplifiers.Amplifier.Pump | AOC19-07.js:275 | one pass of the run loop keeps the run on course to its `Drive` over the pending inputs, or ends it there; the callback's state stays `Leave` of the state the run started from |
| Amplifiers.Amplifier.Run | AOC19-07.js:273-277 | the run is `Drive` over the pending inputs; when it returns, the machine and the unread inputs are its end state, the callback's state is `Leave` of the old one at the unread inputs, and its outputs are appended to the consumer's buffer; the result is true exactly when the machine halted |
| Amplifiers.Build | AOC19-07.js:297-309 | one fresh amplifier per phase, each with a loaded machine; they are distinct and linked in a ring, the last feeding the first |
| Amplifiers.RunStage | AOC19-07.js:260-277 | the ring as values after `run()` of amplifier i: defined exactly when that machine's `Drive` over its pending inputs returns; the machine and callback of i become the run's end, and its outputs are added to the next amplifier's buffer |
| Amplifiers.RoundTo | AOC19-07.js:316 | the first k runs of a round, in index order, keep the ring's size when they all return |
| Amplifiers.RoundToFails | AOC19-07.js:316 | once a run of a round fails, every longer prefix of the round fails |
| Amplifiers.Cycle | AOC19-07.js:314-317 | the ring the loop ends with has every machine halted, the loop's exit condition, and the same size |
| Amplifiers.CycleMoreRounds | AOC19-07.js:314-317 | once the ring has stopped within a round budget, a larger budget gives the same ring |
| Amplifiers.Start | AOC19-07.js:297-312 | one loaded machine per phase; each amplifier's pending inputs are its phase, and the first one's are followed by the 0 |
| Amplifiers.MirrorsRunning | AOC19-07.js:314 | `amplifiers.some(a => a.isRunning())` holds exactly when a machine of the ring the amplifiers mirror is running |
| Amplifiers.Launch | AOC19-07.js:297-312 | the fresh amplifiers, linked and carrying the phases in order, mirror `Start` |
| Amplifiers.RunAt | AOC19-07.js:273-277 | `run()` of one amplifier of a linked ring returns exactly when `RunStage` is defined, and the amplifiers then mirror `RunStage` of the ring they mirrored |
| Amplifiers.Round | AOC19-07.js:316 | `forEach(a => a.run())` returns from every run exactly when `RingRound` is defined, and the amplifiers then mirror `RingRound` of the ring they mirrored |
| Amplifiers.Spin | AOC19-07.js:314-317 | the loop ends with every machine halted exactly when `Cycle` is defined, and the amplifiers then mirror `Cycle` of the ring they started as |
| Amplifiers.Feedback | AOC19-07.js:295-319 | the answer for one phase order is `RingAnswer`: the first value buffered for the first amplifier once every machine has halted (None for undefined); the amplifiers carry the phases in order and mirror the halted ring |
| Amplifiers.FeedbackAnswer | AOC19-07.js:295-319 | the answer for one phase order is `RingAnswer` |
| Amplifiers.JsMax | AOC19-07.js:320 | `Math.max`: NaN (None) when either side is; otherwise the larger of the two |
| Amplifiers.BestFeedback | AOC19-07.js:293-321 | one answer per phase order (n! of them), the k-th being `RingAnswer` for the k-th order of `Permutate`; the best is defined exactly when every answer is; it is at least 0 and every answer; when it is not 0, some order gives it |
| BatchVm.Loaded | AOC19-05.js:14-16 | the loop starts with memory = program, pointer 0, no input calls and no outputs |
| BatchVm.FinishedOnlyWhenStopped | AOC19-05.js:18-24 | `Run` returns only at opcode 99 or with the pointer at or past the memory's end |
| BatchVm.StepKeepsHistory | AOC19-05.js:35-102 | a pass keeps the memory's length and never undoes an input call or an output |
| BatchVm.UnrecognisedOpcode | AOC19-05.js:35-102 | an opcode that no branch matches changes no memory and moves the pointer on by exactly 1 |
| BatchVm.NegativePointer | AOC19-05.js:18-102 | a negative pointer fetches undefined, so the pass only moves the pointer on by 1 |
| BatchVm.JumpTarget | AOC19-05.js:50-67 | a taken jump sets the pointer to its target and skips the increment; an untaken one moves it on by 3 |
| BatchVm.InputOncePerInstruction | AOC19-05.js:39-42 | the input callback is called exactly once per input instruction, and its value is stored at the parameter's position; no other instruction calls it |
| BatchVm.AddsInPlace | AOC19-05.js:76-81 | `Run([1,0,0,0,99])` finishes with memory `[2,0,0,0,99]` |
| BatchVm.EqualsEightByPosition | AOC19-05.js:35-99 | `[3,9,8,9,10,9,4,9,99,-1,8]` finishes and outputs 1 when the input is 8 and 0 otherwise |
| BatchVm.EqualsEightImmediate | AOC19-05.js:35-99 | `[3,3,1108,-1,8,3,4,3,99]` finishes and outputs 1 when the input is 8 and 0 otherwise |
| BatchVm.StepUnary | AOC19-05.js:35-47 | the array and the loop variables after the input/output branch are those of `Unary` |
| BatchVm.StepJump | AOC19-05.js:50-67 | the pointer after the jump branch is that of `Jump` |
| BatchVm.StepTernary | AOC19-05.js:70-102 | the array and the pointer after the arithmetic branch are those of `Ternary` |
| BatchVm.Step | AOC19-05.js:20-102 | one pass of the loop body on the array is `Exec` |
| BatchVm.Run | AOC19-05.js:12-106 | the run ends as `Execute` from the loaded program says; when it finishes, the returned array holds the final memory |
| Permutations.Without | AOC19-07.js:8-9 | splicing out one value leaves one value fewer |
| Permutations.Prefixed | AOC19-07.js:10 | each ordering with the value put in front, in order |
| Permutations.PermutationCount | AOC19-07.js:3-13 | n ≥ 1 values give n! orderings, and none give none; one value gives the one ordering holding the input |
| Permutations.EachIsRearrangement | AOC19-07.js:3-13 | every ordering has the input's values, each as often |
| Permutations.AllDistinct | AOC19-07.js:3-13 | for distinct values no ordering appears twice |
| Planes.Point.constructor | AOC19-11.js:251 | `{ x: x, y: y }` with no colour and no value |
| Planes.InsertFind | AOC19-11.js:256-268 | after storing at (x, y), that coordinate finds the entry and every other one finds what it found before |
| Planes.KeysFind | AOC19-11.js:256-263 | a coordinate is a key exactly when `get(y)?.get(x)` finds a point |
| Planes.InsertKeys | AOC19-11.js:256-268 | storing adds exactly that coordinate to the keys |
| Planes.PropertiesFind | AOC19-11.js:254-272 | the colour and value maps have a coordinate exactly when it holds a point, and give that point's properties |
| Planes.InsertHeld | AOC19-11.js:263-269 | storing a new point keeps every stored point among the plane's points |
| Planes.InsertColors | AOC19-11.js:263-269 | storing a new point adds its colour at its coordinate and changes no other coordinate's colour |
| Planes.InsertValues | AOC19-11.js:263-269 | storing a new point adds its value at its coordinate and changes no other coordinate's value |
| Planes.InsertKeepsIndex | AOC19-11.js:244-272 | a new point at a missing coordinate keeps every point at its own coordinate, keeps `data` listing each point once, and keeps the box widened by `_createPoint` around every point |
| Planes.InsertListed | AOC19-11.js:263-269 | `data.push(entry)` on a first visit keeps `data` listing each point once |
| Planes.SetColor | AOC19-11.js:358 | `point.color = c` changes that coordinate's colour and nothing else |
| Planes.SetValue | AOC19-13.js:432 | `point.value = v` changes that coordinate's value and nothing else |
| Planes.Plane.constructor | AOC19-11.js:235-242 | no points, empty `data`, and bounds [0, 0] on both axes |
| Planes.Plane.CreatePoint | AOC19-11.js:244-252 | a fresh point at (x, y); domain and range widen to include x and y |
| Planes.Plane.AddPoint | AOC19-11.js:263-269 | a first visit: the new point is stored at (x, y) and appended to `data`; the coordinate set grows by (x, y); the bounds widen; no other coordinate's properties change |
| Planes.Plane.GetPoint | AOC19-11.js:254-272 | a repeat visit returns the same entry and changes no Map and no `data`; a first visit stores and appends a fresh point; either way the bounds include (x, y), still include 0, and only widen |
| HullRobot.Turn | AOC19-11.js:362-364 | output 0 turns to (d+3) mod 4 and any other to (d+1) mod 4, always in 0..3 |
| HullRobot.RemainderByFour | AOC19-11.js:362-364 | JavaScript's remainder by 4 with 4 added when negative is the Euclidean remainder |
| HullRobot.Move | AOC19-11.js:366-373 | for a heading in 0..3 the robot ends one unit away along exactly one axis |
| HullRobot.TurnsCancel | AOC19-11.js:362-364 | a left turn undoes a right turn and the other way round |
| HullRobot.AboutTurn | AOC19-11.js:362-373 | two right turns face the other way, and a step that way undoes a step the first way |
| HullRobot.SensePainted | AOC19-11.js:348-358 | after a colour output the read callback reports that colour and creates nothing more |
| HullRobot.SenseTwice | AOC19-11.js:348-353 | the read callback gives the stored colour, or 0 for none; it adds the robot's cell to the grid, keeps every colour already there, and a second read gives the same |
| HullRobot.ReplayAlternates | AOC19-11.js:354-376 | outputs strictly alternate between paint and turn |
| HullRobot.ReplayKeepsHeading | AOC19-11.js:354-376 | whatever the outputs, the heading stays in 0..3 and no coordinate loses its point |
| HullRobot.PaintReturnsHalted | AOC19-11.js:347-377 | the read callback always gives a number, so a run that returns has halted |
| HullRobot.PaintKeepsHeading | AOC19-11.js:341-377 | a whole run keeps the heading in 0..3 and never removes a point from the grid |
| HullRobot.Robot.constructor | AOC19-11.js:341-345 | facing up at the origin, an empty grid, a colour output expected first |
| HullRobot.Robot.StartOnWhite | AOC19-11.js:394 | the origin's colour becomes 1 and nothing else changes |
| HullRobot.Robot.ReadHandler | AOC19-11.js:348-353 | the colour and the grid after the read callback are those of `Sense` |
| HullRobot.Robot.WriteHandler | AOC19-11.js:354-376 | the pose and the grid after the write callback are those of `Respond` |
| HullRobot.Robot.PaintCell | AOC19-11.js:358 | the robot's cell takes the colour and no other colour changes |
| HullRobot.Robot.TurnAndMove | AOC19-11.js:362-373 | the heading becomes `Turn` of the old one and the position moves one unit along it |
| HullRobot.Robot.LoadComputer | AOC19-11.js:14-22 | the machine is loaded; the robot and the grid do not change |
| HullRobot.Robot.StepComputer | AOC19-11.js:26-132 | the machine moves as `Exec` says; the robot and the grid do not change |
| HullRobot.Robot.Prompt | AOC19-11.js:347-353 | the read callback runs exactly when the instruction is an input, as `Offer` says |
| HullRobot.Robot.Perform | AOC19-11.js:354-376 | one instruction, then the write callback on an output |
| HullRobot.Robot.Tick | AOC19-11.js:138 | one step keeps the run on course to the run `Paint` predicts, or ends it with the model's state |
| HullRobot.Robot.Continue | AOC19-11.js:138 | the run loop leaves the state that `Paint` predicts when it returns |
| HullRobot.Robot.Run | AOC19-11.js:347-377 | `computer.run(program)` with the robot's callbacks ends as `Paint` says and reports completion; the result is true exactly when the machine halted |
| Breakout.Sign | AOC19-13.js:478-479 | -1, 0 or 1, with the sign of the difference |
| Breakout.PollAlternates | AOC19-13.js:413-417 | of two calls in a row exactly one gives a value, and the toggle is back where it started; the first call gives nothing exactly when no input was awaited |
| Breakout.Record | AOC19-13.js:418-448 | the buffer of outputs grows by one and empties on the third; the toggle and the joystick are unchanged |
| Breakout.ReplayTriple | AOC19-13.js:418-448 | three outputs from an empty buffer draw exactly the triple they form: the score for (-1, 0), otherwise a tile |
| Breakout.ReplayGroups | AOC19-13.js:418-448 | outputs are grouped in threes from the start: the buffer holds what is past the last complete triple |
| Breakout.Aim | AOC19-13.js:476-480 | while input is awaited the joystick becomes the sign of ball.x - paddle.x; otherwise nothing changes |
| Breakout.FreePlay | AOC19-13.js:450-452 | the program with its first word replaced by 2, the rest unchanged |
| Breakout.InputBlocksOnce | AOC19-13.js:473-482 | every input instruction blocks exactly once; the next pass gives it the aimed joystick and runs it as if it had never blocked |
| Breakout.SessionCoherent | AOC19-13.js:473-482 | a game that finishes has halted, has no callback waiting, and has at most two outputs short of a triple |
| Breakout.Arcade.constructor | AOC19-13.js:404-410 | an empty screen, positions at the origin, score 0, no input awaited |
| Breakout.Arcade.ReadHandler | AOC19-13.js:413-417 | the toggle and the answer are those of `Poll` |
| Breakout.Arcade.WriteHandler | AOC19-13.js:418-448 | the variables and the screen after the write callback are those of `Record` |
| Breakout.Arcade.DrawTile | AOC19-13.js:429-444 | a tile is shown at (x, y) and moves the paddle (3) or the ball (4) |
| Breakout.Arcade.ShowTile | AOC19-13.js:432 | only the value at (x, y) changes |
| Breakout.Arcade.AimJoystick | AOC19-13.js:476-480 | the variables after the steering are those of `Aim` |
| Breakout.Arcade.LoadComputer | AOC19-13.js:452 | the machine is loaded; the variables and the screen do not change |
| Breakout.Arcade.StepComputer | AOC19-13.js:475 | the machine moves as `Exec` says; the variables and the screen do not change |
| Breakout.Arcade.Prompt | AOC19-13.js:413-417 | the read callback runs exactly when the instruction is an input, as `Offer` says |
| Breakout.Arcade.Perform | AOC19-13.js:475-480 | one instruction, the write callback on an output, then the steering |
| Breakout.Arcade.Tick | AOC19-13.js:473-482 | one pass keeps the game on course to the game `Session` predicts, or ends it with the model's state |
| Breakout.Arcade.Continue | AOC19-13.js:473-482 | the game loop leaves the state that `Session` predicts when it finishes |
| Breakout.Arcade.Play | AOC19-13.js:450-484 | loads the free-play program and runs the loop; the returned score is the cabinet's score, and it is the model's when the model's game finishes |
| Moons.Sign | AOC19-12.js:54 | -1, 0 or 1, with the sign of the value |
| Moons.PullsCancel | AOC19-12.js:51-55 | among any moons, the pairwise pulls along an axis add up to 0 |
| Moons.GravityKeepsMomentum | AOC19-12.js:41-57 | the gravity pass keeps the sum of the velocities along every axis |
| Moons.MoveDrifts | AOC19-12.js:60-66 | the velocity pass keeps the velocities and moves the sum of the positions by the sum of the velocities |
| Moons.StepsKeepMomentum | AOC19-12.js:38-73 | no number of time steps changes the sum of the velocities along an axis |
| Moons.SumAbs | AOC19-12.js:69-70 | a sum of absolute values is never negative |
| Moons.SumAbsZero | AOC19-12.js:69-70 | the sum of absolute values is 0 exactly when every value is 0 |
| Moons.EnergyOf | AOC19-12.js:69-71 | `me` is never negative, and it is 0 exactly when the moon is at the origin or standing still |
| Moons.TotalEnergyBounds | AOC19-12.js:75 | the total energy is never negative, and it is 0 when every moon stands still |
| Moons.StartHoldsNoEnergy | AOC19-12.js:20-29 | moons just parsed hold no energy |
| Moons.StartHoldsNoMomentum | AOC19-12.js:20-29 | moons just parsed carry no momentum on any axis |
| Moons.Key | AOC19-12.js:120 | the state key lists 6 numbers per moon |
| Moons.KeyDistinguishes | AOC19-12.js:120 | two states of the same moons with the same key are the same state |
| Moons.Moon.constructor | AOC19-12.js:23-28 | the given id, position [x, y, z] and velocity [0, 0, 0] |
| Moons.Parse | AOC19-12.js:20-31 | one fresh record per position, ids 1..n in input order, standing still |
| Moons.Attract | AOC19-12.js:51-55 | on each axis the target's velocity changes by the sign of the partner's position minus its own; its position stays |
| Moons.PullOn | AOC19-12.js:43-56 | every other moon pulls on moon i: its velocity gains the pull of all of them on each axis, and its position stays |
| Moons.ApplyGravity | AOC19-12.js:41-57 | the records after the gravity pass hold `Gravity` of the old state |
| Moons.Advance | AOC19-12.js:63-66 | the moon moves by its velocity on each axis |
| Moons.Measure | AOC19-12.js:69-71 | `pe`, `ke` and `me` are set from position and velocity, which stay |
| Moons.ApplyVelocity | AOC19-12.js:60-72 | the records after the velocity pass hold `Move` of the old state; part 1 records the energies, and part 2 leaves them |
| Moons.MeasuredTotal | AOC19-12.js:75 | the recorded energies add up to the total energy of the moons' state |
| Moons.Simulate | AOC19-12.js:38-75 | `maxTime` time steps, then the total energy, never negative |
| Moons.SeenGrows | AOC19-12.js:129 | one more step records one more key |
| Moons.SeenAgain | AOC19-12.js:123 | a key seen again means the moons are back in the state of some earlier step |
| Moons.FindRepeat | AOC19-12.js:85-131 | ends with `steps` ≤ 101 and exactly `steps` distinct keys recorded, those of the states after 1..steps steps; when it ends by 100, the state after one more step has a recorded key; the moons are left in that state |
| Passwords.DigitAtIs | AOC19-04.js:6-13 | `parseInt(text[index])` of a number's text is its digit at that index, and NaN past the end |
| Passwords.ClosedGroups | AOC19-04.js:49-74 | the lengths pushed onto `adjacentRuns` are exactly those of the groups of equal digits that a different digit follows |
| Passwords.ExactlyTwo | AOC19-04.js:49-76 | some group is exactly 2 long exactly when some pair of equal digits has a different digit, or nothing, on either side |
| Passwords.GroupsCover | AOC19-04.js:49-74 | at each point of the scan every group is at least 1 long, and together they are as long as the digits scanned |
| Passwords.RunsCover | AOC19-04.js:49-74 | the final `adjacentRuns` are all at least 1 and add up to the number of digits |
| Passwords.StricterRule | AOC19-04.js:4-77 | every number part 2 accepts, part 1 accepts too |
| Passwords.Decrease | AOC19-04.js:13-17 | a digit smaller than the one before it fails both rules |
| Passwords.OneDigit | AOC19-04.js:4-29 | a single digit has one group, one long, and fails both rules |
| Passwords.IsAllowedPassword | AOC19-04.js:4-29 | true exactly when the digits never decrease and two adjacent digits are equal |
| Passwords.ScanPairs | AOC19-04.js:9-28 | the do-while scan over a number's text decides the part 1 rule |
| Passwords.IsAllowedPassword2 | AOC19-04.js:42-77 | true exactly when the digits never decrease and some group of equal digits is exactly 2 long |
| Passwords.ScanGroups | AOC19-04.js:47-76 | the do-while scan with `adjacentRuns` decides the part 2 rule |
| Passwords.CollectAllowed | AOC19-04.js:31-36 | the result lists exactly the accepted numbers of the range, in increasing order |
| Passwords.FewerExactPairs | AOC19-04.js:31-84 | the numbers part 2 collects are among those part 1 collects |
| Text.ParseDecimal | AOC19-14.js:116 | the decimal form that `toString` prints for any integer reads back through `parseInt` as that integer |
| Text.SplitJoin | AOC19-14.js:93 | joining pieces that lack the separator's first character and splitting again gives the pieces back |
| Reactions.Put | AOC19-14.js:91 | `outputs.set` keeps the keys listed once each and every key listed |
| Reactions.ParsedIsOrdered | AOC19-14.js:78-105 | whatever the lines, a parsed Map has its keys listed once each |
| Reactions.TermRoundTrip | AOC19-14.js:95-97 | an input's printed text, with or without the space after its comma, parses back to the input |
| Reactions.LineRoundTrip | AOC19-14.js:84-101 | one printed line parses back to its output name and recipe |
| Reactions.ListingPieces | AOC19-14.js:113-121 | the inputs printed one by one are their texts joined by `, ` |
| Reactions.LinesJoin | AOC19-14.js:110-124 | the text built line by line is the lines joined by line breaks, with a last line break |
| Reactions.PrefixRoundTrip | AOC19-14.js:82-102 | parsing the first k printed lines gives back the first k reactions in the same order |
| Reactions.RenderJoins | AOC19-14.js:107-126 | `toString()` is the printed lines joined by line breaks, with the trim removing only the last one |
| Reactions.ParseRendered | AOC19-14.js:78-126 | parsing the lines of `toString()` gives back the Map it printed, with the keys in the same order |
| Reactions.CeilDiv | AOC19-14.js:53 | `Math.ceil(a / b)` for b > 0: the least multiplier whose b-sized batches cover a |
| Reactions.Leftover | AOC19-14.js:55 | the surplus stored after a reaction runs lies in [0, produced) |
| Reactions.SurplusCovers | AOC19-14.js:41-48 | a stored surplus that covers the amount makes nothing: cost 0 and the surplus goes down by the amount; taking a then b is taking a + b |
| Reactions.ResolveNonNegative | AOC19-14.js:37-71 | with positive yields and non-negative quantities, the surplus never goes negative and the ORE is never negative |
| Reactions.GatherNonNegative | AOC19-14.js:57-70 | the loop over the inputs keeps both non-negative; with every ORE input added, the total never drops below what was already counted |
| Reactions.ResolveDeeper | AOC19-14.js:37-71 | a larger recursion bound changes nothing once the recursion fits |
| Reactions.GatherDeeper | AOC19-14.js:57-70 | the same for the loop over the inputs |
| Reactions.NothingCostsNothing | AOC19-14.js:37-71 | nothing of a chemical costs no ORE, unless resolving it fails |
| Reactions.GatherNothing | AOC19-14.js:57-70 | zero runs of a reaction cost no ORE, unless resolving an input fails |
| Reactions.OreOverwriteDropsInputs | AOC19-14.js:57-70 | as written, an ORE input after a non-ORE input sets the total to its own ORE: FUEL = 7 A + 1 ORE with 10 A = 10 ORE gives 1, while adding it gives 11 |
| ReactionSystem.Node.constructor | AOC19-14.js:5-11 | the given name and value, no children and no parent |
| ReactionSystem.Node.Add | AOC19-14.js:13-17 | the child's parent becomes the receiver, and the child goes after the children already there |
| ReactionSystem.AddInputs | AOC19-14.js:93-101 | throws exactly when a piece has no name; otherwise reports NaN exactly when a quantity is NaN, and else adds one child per piece, in order, holding what the piece parses to |
| ReactionSystem.ReadLine | AOC19-14.js:84-101 | throws exactly when `ParseLine` does (no `=>`, or a term without a name); otherwise a fresh output node, holding the line's reaction when no quantity is NaN |
| ReactionSystem.ParseReactions | AOC19-14.js:78-105 | `_parse` throws exactly when `ParseLines` does and meets NaN exactly when it does; otherwise the Map's nodes hold the reactions `ParseLines` gives, in insertion order |
| ReactionSystem.System.Of | AOC19-14.js:27-30 | the system keeps the Map `_parse` built |
| ReactionSystem.System.ToString | AOC19-14.js:107-126 | the text is `Render` of the list the system holds, which parses back to that list |
| ReactionSystem.System.ReactWith | AOC19-14.js:37-71 | `_react` on the surplus Map, updated in place: the ORE and the new surplus are those of `Resolve` under the given tally: with `AsWritten` an ORE input sets the running total as AOC19-14.js:62 does, with `Summed` it is added |
| ReactionSystem.System.ReactInputs | AOC19-14.js:57-70 | the loop over the components, with the ORE branch of AOC19-14.js:61-62 taken as the tally says, gives the ORE and the surplus of `Gather` under that tally |
| ReactionSystem.System.React | AOC19-14.js:32-35 | `react` starts from an empty surplus Map, so its result depends only on the list, the name and the amount |
| ReactionSystem.Surplus.constructor | AOC19-14.js:34 | `new Map()`: no surplus |
| ReactionSystem.EstimateFuel | AOC19-14.js:197-222 | under either tally, an estimate it returns is 0 or takes less than the target ORE, and one more FUEL takes the target or more |
| ReactionSystem.NewSystem | AOC19-14.js:27-30 | `new System(reactions)` throws exactly when parsing throws; otherwise it holds the parsed list |

## Left out

- AOC19-10.js is not part of this model. It relies on floating-point ray casting, `Math.atan2` angles and lodash loaded over the network.
- Network loading and `eval`: the lodash `fetch`/`eval` of AOC19-12.js and its `eval`-based text parser. Moons are given as integer triples. `_.sumBy` and `_.join` are plain sums and a key sequence.
- Display code of `Plane`: `_iterate`, `toString`, `Symbol.iterator` and `forEach`. The same goes for `getDomain`/`getRange` beyond reading the bounds, and for the `render` function of the game. All of it is output formatting.
- `console.log`, the embedded puzzle programs and inputs, the `split(',')`/`parseInt` conversion of programs, and the puzzle answers. Programs are `seq<int>`.
- The callbacks as arbitrary closures. Each is modelled as what it returns (`Option<int>`, None for `null`/`undefined`) and as the state it changes. JavaScript truthiness is modelled only where the code tests `null`/`undefined`.
- Unbounded runs. `Drive`, `Execute`, `Paint` and `Session` take a step budget, and `Resolve` takes a depth, because a cyclic reaction list recurses without end. `Feedback` and `EstimateFuel` take a round budget. Running out is a separate outcome about which nothing is claimed. Whether the ring driver (AOC19-07.js:314-317) and the FUEL search end depends on the puzzle input and is not modelled.
- Negative addresses in the extended machine, and reads or writes outside the array in the other two. JavaScript would read undefined or grow the array. The single steps exclude these by precondition, and the run drivers stop with `Unmodelled` before such a step.
- Non-integer arithmetic:
  - `Math.floor(instruction / 100)` on a negative word is not decoded, so a negative word gives an opcode of at most 0, which throws or matches no branch;
  - `parseInt` precision past 2^53 and exponent notation from 10^21 are not modelled;
  - the machines' add, multiply and compare (AOC19-05.js:70-99, AOC19-07.js:100-131, AOC19-13.js:107-127) and the reaction arithmetic (AOC19-14.js:53-66) are on unbounded integers, while JavaScript doubles round past 2^53;
  - a reaction that yields 0 is the `Unmodelled` outcome, because the division gives Infinity or NaN.
- NaN quantities in the reaction list. Parsing reports `NaN` and the model does not follow such a list further.
- `getInput()` of the Amplifier. Its first value is taken as `Head` of the buffer.
- Amplifiers.Feedback: a ring whose run throws, would reach outside the memory, exceeds `fuel` steps, or still has a machine running after `rounds` rounds answers None. In JavaScript a throw ends the program, and the other cases run on.
- Amplifiers.BestFeedback: inherits the same None answers from `Feedback`.
- Amplifiers.RunStage: rings of fewer than two amplifiers, where one would feed itself, are not modelled. The source always builds five.
- The one-value case of `permutate`: AOC19-07.js:5 returns the flat `values`, while `Permutate` gives the list holding that one ordering. Inside the recursion both give the same orderings, so only a top-level call with one value differs.
- HullRobot.Robot.Run: ties the run to the model `Paint` only when `Paint` returns. A run that throws, would resolve a negative address, or exceeds the budget is not described.
- Breakout.Arcade.Play: ties the game to the model `Session` only when `Session` finishes.
- ReactionSystem.EstimateFuel: states what an estimate it returns satisfies, not that it returns one. Termination depends on the list and the target.
- The update in place of the surplus Map is modelled as a `map` field of `Surplus` that the methods reassign.
- Moons.Simulate: the total is stated only for `maxTime > 0`, since `me` is undefined before the first velocity pass.

## Findings

| source | as written | input that shows it | evidently intended | confidence | as-written member | corrected member |
|---|---|---|---|---|---|---|
| AOC19-14.js:62 | an ORE input sets the running total (`value = multiplier * component.value`), dropping the ORE of every input before it | FUEL = 7 A + 1 ORE, with 10 A = 10 ORE: `react('FUEL', 1)` gives 1 ORE | add it like every other input (`+=`), giving 11 ORE | not executed | Reactions.OreOverwriteDropsInputs | Reactions.GatherNonNegative |

The class methods `ReactionSystem.System.ReactWith`, `ReactInputs` and `React`, and the FUEL search built on them, take the tally as a parameter: with `AsWritten` they do what AOC19-14.js:62 does, with `Summed` they do the corrected sum. Their contracts tie them to the pure `Resolve` and `Gather` under the same tally, so the properties proved about either tally carry over to them. The lists of the puzzle input never mix ORE with other inputs, so there both tallies agree.
