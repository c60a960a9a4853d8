/**
 * The moons of AOC19-12.js: integer positions and velocities on three
 * axes, a gravity pass that pulls every pair of moons one unit towards each
 * other on each axis, a velocity pass that moves each moon by its velocity,
 * the energy of the system, and the search for a state that repeats.
 */
module Moons {

  /** The number of axes: `[pos.x, pos.y, pos.z]`. */
  const Axes := 3

  /** A moon's state as values: its position and its velocity. */
  datatype Body = Body(position: seq<int>, velocity: seq<int>)

  /** Every body has a coordinate and a velocity on each axis. */
  predicate Shaped(bodies: seq<Body>) {
    forall i | 0 <= i < |bodies| :: |bodies[i].position| == Axes && |bodies[i].velocity| == Axes
  }

  /** `value === 0 ? 0 : value < 0 ? -1 : 1`. */
  function Sign(v: int): (s: int)
    ensures -1 <= s <= 1 && (s == 0 <==> v == 0) && (s < 0 <==> v < 0)
  {
    if v == 0 then 0 else if v < 0 then -1 else 1
  }

  /** The pull on body `i` along axis `p` from the bodies before `n`, leaving out `i` itself. */
  function Pull(bodies: seq<Body>, i: nat, p: nat, n: nat): int
    requires Shaped(bodies) && i < |bodies| && p < Axes && n <= |bodies|
  {
    if n == 0 then 0
    else Pull(bodies, i, p, n - 1) + (if n - 1 == i then 0 else Sign(bodies[n - 1].position[p] - bodies[i].position[p]))
  }

  /** The gravity pass: each body's velocity takes the pull of all the others; positions stay. */
  function Gravity(bodies: seq<Body>): (after: seq<Body>)
    requires Shaped(bodies)
    ensures |after| == |bodies| && Shaped(after)
  {
    seq(|bodies|, i requires 0 <= i < |bodies| =>
      Body(bodies[i].position, seq(Axes, p requires 0 <= p < Axes => bodies[i].velocity[p] + Pull(bodies, i, p, |bodies|))))
  }

  /** A body moved by its velocity. */
  function Moved(b: Body): Body
    requires |b.position| == Axes && |b.velocity| == Axes
  {
    Body(seq(Axes, p requires 0 <= p < Axes => b.position[p] + b.velocity[p]), b.velocity)
  }

  /** The velocity pass: each body moves by its velocity; velocities stay. */
  function Move(bodies: seq<Body>): (after: seq<Body>)
    requires Shaped(bodies)
    ensures |after| == |bodies| && Shaped(after)
  {
    seq(|bodies|, i requires 0 <= i < |bodies| => Moved(bodies[i]))
  }

  /** One time step: gravity, then velocity. */
  function Step(bodies: seq<Body>): (after: seq<Body>)
    requires Shaped(bodies)
    ensures |after| == |bodies| && Shaped(after)
  {
    Move(Gravity(bodies))
  }

  /** The state after `t` time steps. */
  function Steps(bodies: seq<Body>, t: nat): (after: seq<Body>)
    requires Shaped(bodies)
    ensures |after| == |bodies| && Shaped(after)
  {
    if t == 0 then bodies else Step(Steps(bodies, t - 1))
  }

  /** The bodies at rest at the given positions: `velocity: [0, 0, 0]`. */
  function Start(positions: seq<(int, int, int)>): (bodies: seq<Body>)
    ensures |bodies| == |positions| && Shaped(bodies)
  {
    seq(|positions|, i requires 0 <= i < |positions| =>
      Body([positions[i].0, positions[i].1, positions[i].2], [0, 0, 0]))
  }

  // Sums along one axis

  /** The velocities of the first `m` bodies along axis `p`, added up. */
  function Momentum(bodies: seq<Body>, p: nat, m: nat): int
    requires Shaped(bodies) && p < Axes && m <= |bodies|
  {
    if m == 0 then 0 else Momentum(bodies, p, m - 1) + bodies[m - 1].velocity[p]
  }

  /** The positions of the first `m` bodies along axis `p`, added up. */
  function Centre(bodies: seq<Body>, p: nat, m: nat): int
    requires Shaped(bodies) && p < Axes && m <= |bodies|
  {
    if m == 0 then 0 else Centre(bodies, p, m - 1) + bodies[m - 1].position[p]
  }

  /** The pulls on the first `m` bodies from the bodies before `n`, added up. */
  function Pulls(bodies: seq<Body>, p: nat, m: nat, n: nat): int
    requires Shaped(bodies) && p < Axes && m <= |bodies| && n <= |bodies|
  {
    if m == 0 then 0 else Pulls(bodies, p, m - 1, n) + Pull(bodies, m - 1, p, n)
  }

  /** The pulls of body `n` on the first `m` bodies, added up. */
  function PullsOf(bodies: seq<Body>, p: nat, n: nat, m: nat): int
    requires Shaped(bodies) && p < Axes && m <= |bodies| && n < |bodies|
  {
    if m == 0 then 0 else PullsOf(bodies, p, n, m - 1) + Sign(bodies[n].position[p] - bodies[m - 1].position[p])
  }

  /** Letting one more body pull on the first `m` bodies adds its pulls on them. */
  lemma {:induction false} PullsGrow(bodies: seq<Body>, p: nat, m: nat, n: nat)
    requires Shaped(bodies) && p < Axes && m <= n < |bodies|
    ensures Pulls(bodies, p, m, n + 1) == Pulls(bodies, p, m, n) + PullsOf(bodies, p, n, m)
  {
    if m > 0 {
      PullsGrow(bodies, p, m - 1, n);
    }
  }

  /** Body `n`'s pull on each earlier body is the opposite of that body's pull on `n`. */
  lemma {:induction false} PullBack(bodies: seq<Body>, p: nat, n: nat, m: nat)
    requires Shaped(bodies) && p < Axes && m <= n < |bodies|
    ensures Pull(bodies, n, p, m) == -PullsOf(bodies, p, n, m)
  {
    if m > 0 {
      PullBack(bodies, p, n, m - 1);
    }
  }

  /** The pulls among the first `n` bodies cancel out. */
  lemma {:induction false} PullsCancel(bodies: seq<Body>, p: nat, n: nat)
    requires Shaped(bodies) && p < Axes && n <= |bodies|
    ensures Pulls(bodies, p, n, n) == 0
  {
    if n > 0 {
      var k := n - 1;
      PullsCancel(bodies, p, k);
      PullsGrow(bodies, p, k, k);
      PullBack(bodies, p, k, k);
      assert Pull(bodies, k, p, n) == Pull(bodies, k, p, k);
    }
  }

  /** The momentum after the gravity pass is the momentum before plus the pulls. */
  lemma {:induction false} GravityMomentum(bodies: seq<Body>, p: nat, m: nat)
    requires Shaped(bodies) && p < Axes && m <= |bodies|
    ensures Momentum(Gravity(bodies), p, m) == Momentum(bodies, p, m) + Pulls(bodies, p, m, |bodies|)
  {
    if m > 0 {
      GravityMomentum(bodies, p, m - 1);
    }
  }

  /** The gravity pass leaves the sum of the velocities along every axis as it was. */
  lemma GravityKeepsMomentum(bodies: seq<Body>, p: nat)
    requires Shaped(bodies) && p < Axes
    ensures Momentum(Gravity(bodies), p, |bodies|) == Momentum(bodies, p, |bodies|)
  {
    GravityMomentum(bodies, p, |bodies|);
    PullsCancel(bodies, p, |bodies|);
  }

  /** The velocity pass leaves the velocities and moves the sum of the positions by the sum of the velocities. */
  lemma {:induction false} MoveDrifts(bodies: seq<Body>, p: nat, m: nat)
    requires Shaped(bodies) && p < Axes && m <= |bodies|
    ensures Momentum(Move(bodies), p, m) == Momentum(bodies, p, m)
    ensures Centre(Move(bodies), p, m) == Centre(bodies, p, m) + Momentum(bodies, p, m)
  {
    if m > 0 {
      MoveDrifts(bodies, p, m - 1);
    }
  }

  /** No number of time steps changes the sum of the velocities along an axis. */
  lemma {:induction false} StepsKeepMomentum(bodies: seq<Body>, p: nat, t: nat)
    requires Shaped(bodies) && p < Axes
    ensures Momentum(Steps(bodies, t), p, |bodies|) == Momentum(bodies, p, |bodies|)
  {
    if t > 0 {
      var before := Steps(bodies, t - 1);
      StepsKeepMomentum(bodies, p, t - 1);
      GravityKeepsMomentum(before, p);
      MoveDrifts(Gravity(before), p, |bodies|);
    }
  }

  // Energy

  function Abs(v: int): nat {
    if v < 0 then -v else v
  }

  /** `_.sumBy(values, Math.abs)`. */
  function SumAbs(values: seq<int>): (s: int)
    ensures s >= 0
  {
    if |values| == 0 then 0 else SumAbs(values[..|values| - 1]) + Abs(values[|values| - 1])
  }

  /** The sum of the absolute values is zero exactly when every value is. */
  lemma {:induction false} SumAbsZero(values: seq<int>)
    ensures SumAbs(values) == 0 <==> forall i | 0 <= i < |values| :: values[i] == 0
  {
    if |values| > 0 {
      var prior := values[..|values| - 1];
      SumAbsZero(prior);
      assert forall i | 0 <= i < |prior| :: prior[i] == values[i];
    }
  }

  /** `me = pe * ke`: the potential energy (the distance from the origin) times the kinetic energy (the speed). */
  function Energy(b: Body): int {
    SumAbs(b.position) * SumAbs(b.velocity)
  }

  /** `_.sumBy(moons, 'me')`. */
  function TotalEnergy(bodies: seq<Body>): int {
    if |bodies| == 0 then 0 else TotalEnergy(bodies[..|bodies| - 1]) + Energy(bodies[|bodies| - 1])
  }

  /** Every body has energy of at least zero, and only a body standing still or at the origin has none. */
  lemma EnergyOf(b: Body)
    ensures Energy(b) >= 0
    ensures Energy(b) == 0 <==> SumAbs(b.position) == 0 || SumAbs(b.velocity) == 0
  { }

  /** The total energy is at least zero, and it is zero when every body stands still. */
  lemma {:induction false} TotalEnergyBounds(bodies: seq<Body>)
    ensures TotalEnergy(bodies) >= 0
    ensures (forall i | 0 <= i < |bodies| :: SumAbs(bodies[i].velocity) == 0) ==> TotalEnergy(bodies) == 0
  {
    if |bodies| > 0 {
      var prior := bodies[..|bodies| - 1];
      TotalEnergyBounds(prior);
      EnergyOf(bodies[|bodies| - 1]);
      assert forall i | 0 <= i < |prior| :: prior[i] == bodies[i];
    }
  }

  /** Moons just parsed stand still and hold no energy. */
  lemma StartHoldsNoEnergy(positions: seq<(int, int, int)>)
    ensures TotalEnergy(Start(positions)) == 0
  {
    var bodies := Start(positions);
    SumAbsZero([0, 0, 0]);
    assert forall i | 0 <= i < |bodies| :: bodies[i].velocity == [0, 0, 0];
    TotalEnergyBounds(bodies);
  }

  /** Moons just parsed carry no momentum on any axis. */
  lemma StartHoldsNoMomentum(positions: seq<(int, int, int)>, p: nat)
    requires p < Axes
    ensures Momentum(Start(positions), p, |positions|) == 0
  {
    AtRest(Start(positions), p, |positions|);
  }

  /** Bodies standing still carry no momentum. */
  lemma {:induction false} AtRest(bodies: seq<Body>, p: nat, m: nat)
    requires Shaped(bodies) && p < Axes && m <= |bodies|
    requires forall i | 0 <= i < |bodies| :: bodies[i].velocity[p] == 0
    ensures Momentum(bodies, p, m) == 0
  {
    if m > 0 {
      AtRest(bodies, p, m - 1);
    }
  }

  // The state key

  /** `_.concat(m.position, m.velocity)` for each moon, one after the other: what `_.join(..., ',')` lists. */
  function Key(bodies: seq<Body>): (key: seq<int>)
    ensures |key| == 2 * Axes * |bodies| || !Shaped(bodies)
  {
    if |bodies| == 0 then [] else Key(bodies[..|bodies| - 1]) + bodies[|bodies| - 1].position + bodies[|bodies| - 1].velocity
  }

  /** Two states of the same moons with the same key are the same state. */
  lemma {:induction false} KeyDistinguishes(a: seq<Body>, b: seq<Body>)
    requires Shaped(a) && Shaped(b) && |a| == |b| && Key(a) == Key(b)
    ensures a == b
  {
    if |a| > 0 {
      var n := |a| - 1;
      var ka, kb := Key(a[..n]), Key(b[..n]);
      assert Shaped(a[..n]) && Shaped(b[..n]);
      var x, y := a[n], b[n];
      assert Key(a) == ka + x.position + x.velocity;
      assert Key(b) == kb + y.position + y.velocity;
      assert ka == Key(a)[..|ka|] && kb == Key(b)[..|kb|];
      KeyDistinguishes(a[..n], b[..n]);
      assert x.position == Key(a)[|ka|..|ka| + Axes] && y.position == Key(b)[|kb|..|kb| + Axes];
      assert x.velocity == Key(a)[|ka| + Axes..] && y.velocity == Key(b)[|kb| + Axes..];
      assert a == a[..n] + [x] && b == b[..n] + [y];
    }
  }

  // The moons as objects

  /** A moon record: `id`, `position` and `velocity` lists updated in place, and the energies of the last velocity pass. */
  class Moon {
    const id: int
    var position: seq<int>
    var velocity: seq<int>
    var pe: int
    var ke: int
    var me: int

    /** `{ id, position: [pos.x, pos.y, pos.z], velocity: [0, 0, 0] }`; the energies are not set yet. */
    constructor (id: int, pos: (int, int, int))
      ensures this.id == id && position == [pos.0, pos.1, pos.2] && velocity == [0, 0, 0]
      ensures pe == 0 && ke == 0 && me == 0
    {
      this.id := id;
      position := [pos.0, pos.1, pos.2];
      velocity := [0, 0, 0];
      pe, ke, me := 0, 0, 0;
    }
  }

  /** Distinct moon records, each with a coordinate and a velocity per axis. */
  ghost predicate Valid(moons: seq<Moon>)
    reads moons
  {
    (forall a, b | 0 <= a < b < |moons| :: moons[a] != moons[b]) &&
    forall i | 0 <= i < |moons| :: |moons[i].position| == Axes && |moons[i].velocity| == Axes
  }

  /** What the moon records hold, as values. */
  function State(moons: seq<Moon>): (bodies: seq<Body>)
    reads moons
    ensures |bodies| == |moons|
  {
    seq(|moons|, i requires 0 <= i < |moons| reads moons => Body(moons[i].position, moons[i].velocity))
  }

  /** `_.sumBy(moons, 'me')`. */
  function Measured(moons: seq<Moon>): int
    reads moons
  {
    if |moons| == 0 then 0 else Measured(moons[..|moons| - 1]) + moons[|moons| - 1].me
  }

  /** `parse`: a record per position, numbered from 1 in input order, standing still. */
  method Parse(positions: seq<(int, int, int)>) returns (moons: seq<Moon>)
    ensures Valid(moons) && State(moons) == Start(positions)
    ensures forall i | 0 <= i < |moons| :: fresh(moons[i]) && moons[i].id == i + 1
  {
    moons := [];
    for k := 0 to |positions|
      invariant |moons| == k && Valid(moons) && State(moons) == Start(positions[..k])
      invariant forall i | 0 <= i < |moons| :: fresh(moons[i]) && moons[i].id == i + 1
    {
      var moon := new Moon(|moons| + 1, positions[k]);
      ghost var prior := moons;
      moons := moons + [moon];
      assert State(moons) == Start(positions[..k + 1]) by {
        assert forall i | 0 <= i < k :: moons[i] == prior[i] && State(moons)[i] == State(prior)[i];
      }
    }
    assert positions[..|positions|] == positions;
  }

  /** The innermost loop of the gravity pass: the target's velocity moves one unit towards the partner on each axis. */
  method Attract(target: Moon, partner: Moon)
    requires target != partner
    requires |target.position| == Axes && |target.velocity| == Axes && |partner.position| == Axes
    modifies target`velocity
    ensures target.position == old(target.position) && |target.velocity| == Axes
    ensures forall q | 0 <= q < Axes :: target.velocity[q] == old(target.velocity[q]) + Sign(partner.position[q] - target.position[q])
  {
    for p := 0 to |target.position|
      invariant target.position == old(target.position) && |target.velocity| == Axes
      invariant forall q | 0 <= q < Axes ::
        target.velocity[q] == old(target.velocity[q]) + (if q < p then Sign(partner.position[q] - target.position[q]) else 0)
    {
      var value := partner.position[p] - target.position[p];
      target.velocity := target.velocity[p := target.velocity[p] + (if value == 0 then 0 else if value < 0 then -1 else 1)];
    }
  }

  /** The pull on a body depends on the positions alone. */
  lemma {:induction false} PullOfPositions(a: seq<Body>, b: seq<Body>, i: nat, p: nat, n: nat)
    requires Shaped(a) && Shaped(b) && |a| == |b| && i < |a| && p < Axes && n <= |a|
    requires forall k | 0 <= k < |a| :: a[k].position == b[k].position
    ensures Pull(a, i, p, n) == Pull(b, i, p, n)
  {
    if n > 0 {
      PullOfPositions(a, b, i, p, n - 1);
    }
  }

  /** Velocities that took body `i`'s pull on each axis are body `i`'s velocities after the gravity pass. */
  lemma GravityAt(bodies: seq<Body>, i: nat, v: seq<int>)
    requires Shaped(bodies) && i < |bodies| && |v| == Axes
    requires forall q | 0 <= q < Axes :: v[q] == bodies[i].velocity[q] + Pull(bodies, i, q, |bodies|)
    ensures v == Gravity(bodies)[i].velocity
  { }

  /** The middle loop of the gravity pass: every other moon pulls on moon `i`. */
  method PullOn(moons: seq<Moon>, i: nat)
    requires Valid(moons) && i < |moons|
    modifies moons[i]
    ensures Valid(moons) && moons[i].position == old(moons[i].position)
    ensures forall q | 0 <= q < Axes :: moons[i].velocity[q] == old(moons[i].velocity[q]) + Pull(old(State(moons)), i, q, |moons|)
  {
    ghost var bodies := State(moons);
    var target := moons[i];
    for j := 0 to |moons|
      invariant Valid(moons) && target.position == bodies[i].position
      invariant forall q | 0 <= q < Axes :: target.velocity[q] == bodies[i].velocity[q] + Pull(bodies, i, q, j)
    {
      if i == j {
        continue;
      }
      var partner := moons[j];
      assert partner.position == bodies[j].position;
      ghost var velocity := target.velocity;
      Attract(target, partner);
      forall q | 0 <= q < Axes
        ensures target.velocity[q] == bodies[i].velocity[q] + Pull(bodies, i, q, j + 1)
      {
        assert target.velocity[q] == velocity[q] + Sign(bodies[j].position[q] - bodies[i].position[q]);
      }
    }
  }

  /** The gravity pass: every moon's velocity moves one unit towards every other moon on each axis. */
  method ApplyGravity(moons: seq<Moon>)
    requires Valid(moons)
    modifies moons
    ensures Valid(moons)
    ensures State(moons) == Gravity(old(State(moons)))
  {
    ghost var bodies := State(moons);
    ghost var after := Gravity(bodies);
    for i := 0 to |moons|
      invariant Valid(moons)
      invariant forall k | 0 <= k < |moons| :: moons[k].position == bodies[k].position
      invariant forall k | 0 <= k < i :: moons[k].velocity == after[k].velocity
      invariant forall k | i <= k < |moons| :: moons[k].velocity == bodies[k].velocity
    {
      ghost var now := State(moons);
      PullOn(moons, i);
      forall q | 0 <= q < Axes
        ensures Pull(now, i, q, |moons|) == Pull(bodies, i, q, |moons|)
      {
        PullOfPositions(now, bodies, i, q, |moons|);
      }
      GravityAt(bodies, i, moons[i].velocity);
    }
    assert State(moons) == after;
  }

  /** The energies the velocity pass of part 1 records on a moon. */
  ghost predicate Measures(m: Moon)
    reads m
  {
    m.pe == SumAbs(m.position) && m.ke == SumAbs(m.velocity) && m.me == m.pe * m.ke
  }

  /** The innermost loop of the velocity pass: the moon moves by its velocity on each axis. */
  method Advance(moon: Moon)
    requires |moon.position| == Axes && |moon.velocity| == Axes
    modifies moon`position
    ensures Body(moon.position, moon.velocity) == Moved(Body(old(moon.position), old(moon.velocity)))
  {
    ghost var before := Body(moon.position, moon.velocity);
    for p := 0 to |moon.position|
      invariant |moon.position| == Axes && moon.velocity == before.velocity
      invariant forall q | 0 <= q < Axes :: moon.position[q] == before.position[q] + (if q < p then before.velocity[q] else 0)
    {
      moon.position := moon.position[p := moon.position[p] + moon.velocity[p]];
    }
  }

  /** `pe`, `ke` and `me` of part 1. */
  method Measure(moon: Moon)
    modifies moon`pe, moon`ke, moon`me
    ensures Measures(moon) && moon.position == old(moon.position) && moon.velocity == old(moon.velocity)
  {
    moon.pe := SumAbs(moon.position);
    moon.ke := SumAbs(moon.velocity);
    moon.me := moon.pe * moon.ke;
  }

  /**
   * The velocity pass: every moon moves by its velocity. Part 1 (`measure`)
   * also records each moon's `pe`, `ke` and `me`; part 2 leaves them.
   */
  method ApplyVelocity(moons: seq<Moon>, measure: bool)
    requires Valid(moons)
    modifies moons
    ensures Valid(moons) && State(moons) == Move(old(State(moons)))
    ensures forall k | 0 <= k < |moons| ::
      if measure then Measures(moons[k]) else moons[k].me == old(moons[k].me)
  {
    ghost var bodies := State(moons);
    for i := 0 to |moons|
      invariant Valid(moons)
      invariant forall k | 0 <= k < i :: Body(moons[k].position, moons[k].velocity) == Moved(bodies[k])
      invariant forall k | i <= k < |moons| :: moons[k].position == bodies[k].position && moons[k].velocity == bodies[k].velocity
      invariant forall k | 0 <= k < |moons| ::
        if measure && k < i then Measures(moons[k]) else moons[k].me == old(moons[k].me)
    {
      var moon := moons[i];
      Advance(moon);
      if measure {
        Measure(moon);
      }
    }
    assert State(moons) == Move(bodies);
  }

  /** The recorded energies of measured moons add up to the total energy of their state. */
  lemma {:induction false} MeasuredTotal(moons: seq<Moon>)
    requires forall k | 0 <= k < |moons| :: Measures(moons[k])
    ensures Measured(moons) == TotalEnergy(State(moons))
  {
    if |moons| > 0 {
      var prior := moons[..|moons| - 1];
      MeasuredTotal(prior);
      assert State(prior) == State(moons)[..|moons| - 1];
    }
  }

  /** Part 1: `maxTime` time steps, then `_.sumBy(moons, 'me')`. */
  method Simulate(moons: seq<Moon>, maxTime: nat) returns (total: int)
    requires Valid(moons)
    modifies moons
    ensures Valid(moons) && State(moons) == Steps(old(State(moons)), maxTime)
    ensures maxTime > 0 ==> total == TotalEnergy(State(moons)) && total >= 0
  {
    ghost var start := State(moons);
    for t := 0 to maxTime
      invariant Valid(moons) && State(moons) == Steps(start, t)
      invariant t > 0 ==> forall k | 0 <= k < |moons| :: Measures(moons[k])
    {
      ApplyGravity(moons);
      ApplyVelocity(moons, true);
    }
    total := Measured(moons);
    if maxTime > 0 {
      MeasuredTotal(moons);
      TotalEnergyBounds(State(moons));
    }
  }

  /** The keys of the states after 1 to `n` time steps. */
  ghost function Seen(bodies: seq<Body>, n: nat): set<seq<int>>
    requires Shaped(bodies)
  {
    set k | 1 <= k <= n :: Key(Steps(bodies, k))
  }

  /** One more step records one more key. */
  lemma SeenGrows(bodies: seq<Body>, n: nat)
    requires Shaped(bodies)
    ensures Seen(bodies, n + 1) == Seen(bodies, n) + {Key(Steps(bodies, n + 1))}
  {
    forall key | key in Seen(bodies, n + 1)
      ensures key in Seen(bodies, n) || key == Key(Steps(bodies, n + 1))
    {
      var k :| 1 <= k <= n + 1 && key == Key(Steps(bodies, k));
      if k <= n {
        assert key in Seen(bodies, n);
      }
    }
  }

  /** A key seen again is a state seen again: the moons are back where they were after some earlier step. */
  lemma SeenAgain(bodies: seq<Body>, n: nat)
    requires Shaped(bodies) && Key(Steps(bodies, n + 1)) in Seen(bodies, n)
    ensures exists k | 1 <= k <= n :: Steps(bodies, k) == Steps(bodies, n + 1)
  {
    var k :| 1 <= k <= n && Key(Steps(bodies, k)) == Key(Steps(bodies, n + 1));
    KeyDistinguishes(Steps(bodies, k), Steps(bodies, n + 1));
  }

  /** A gravity pass then a velocity pass from the state after `n` steps give the state after `n + 1`. */
  lemma StepsNext(start: seq<Body>, n: nat, before: seq<Body>, pulled: seq<Body>, after: seq<Body>)
    requires Shaped(start) && before == Steps(start, n)
    requires pulled == Gravity(before) && after == Move(pulled)
    ensures after == Steps(start, n + 1)
  { }

  /**
   * Part 2: step until the state repeats one already recorded, or until
   * more than 100 states are recorded; `steps` counts the recorded states.
   */
  method FindRepeat(moons: seq<Moon>) returns (steps: nat, previousStates: set<seq<int>>)
    requires Valid(moons)
    modifies moons
    ensures steps <= 101 && |previousStates| == steps
    ensures previousStates == Seen(old(State(moons)), steps)
    ensures steps <= 100 ==> Key(Steps(old(State(moons)), steps + 1)) in previousStates
    ensures Valid(moons) && State(moons) == Steps(old(State(moons)), steps + 1)
  {
    ghost var start := State(moons);
    steps := 0;
    previousStates := {};
    while true
      invariant Valid(moons) && State(moons) == Steps(start, steps)
      invariant steps <= 101 && |previousStates| == steps
      invariant previousStates == Seen(start, steps)
      decreases 101 - steps
    {
      ghost var before := State(moons);
      ApplyGravity(moons);
      ghost var pulled := State(moons);
      ApplyVelocity(moons, false);
      StepsNext(start, steps, before, pulled, State(moons));
      var state := Key(State(moons));
      if steps > 100 || state in previousStates {
        break;
      }
      previousStates := previousStates + {state};
      SeenGrows(start, steps);
      steps := steps + 1;
    }
  }
}
