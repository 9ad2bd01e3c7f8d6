/** The physics accumulator: it sums frame times and, once the sum exceeds the
    simulation step, runs one integration pass over every registered rigid
    body with the whole sum as the time step, then starts again from zero.

    A pass first moves every body with the velocity it had before the pass,
    then sets every body's acceleration from gravity and its mass and updates
    its velocity. Arithmetic is over the reals. */
module Physics {
  import opened Wrappers
  import opened Vectors

  /** Gravity, kG: 10 along the negative y axis. */
  const G: Vec3 := Vec3(0.0, -10.0, 0.0)

  /** `G` is the source's `10 * (0, -1, 0)`. */
  lemma GravityIsTenDown()
    ensures G == Vec3(0.0, -1.0, 0.0).Times(10.0)
  {
  }

  /** The fields of a rigid body that the accumulator reads and writes. */
  datatype BodyState = BodyState(position: Vec3, velocity: Vec3, acceleration: Vec3, mass: real, massInv: real)

  /** `mass * kG * mass_inv`. */
  function Acceleration(mass: real, massInv: real): Vec3 {
    G.Times(mass).Times(massInv)
  }

  /** A body with zero inverse mass (a static body) gets no acceleration;
      whenever `mass * mass_inv == 1` the mass cancels and the acceleration
      is gravity itself, (0, -10, 0). */
  lemma AccelerationCases(mass: real, massInv: real)
    ensures massInv == 0.0 ==> Acceleration(mass, massInv) == Zero
    ensures mass * massInv == 1.0 ==> Acceleration(mass, massInv) == G == Vec3(0.0, -10.0, 0.0)
  {
    assert Acceleration(mass, massInv) == Vec3(0.0 * mass * massInv, -10.0 * mass * massInv, 0.0 * mass * massInv);
    assert -10.0 * mass * massInv == -10.0 * (mass * massInv);
  }

  /** One body's share of `moveBodies`. */
  function Moved(s: BodyState, dt: real): BodyState {
    s.(position := s.position.Plus(s.velocity.Times(dt)))
  }

  /** One body's share of `applyForces`. */
  function ForcesApplied(s: BodyState, dt: real): BodyState {
    var a := Acceleration(s.mass, s.massInv);
    s.(acceleration := a, velocity := s.velocity.Plus(a.Times(dt)))
  }

  /** One body's share of `simulate`: move, then apply forces. */
  function Pass(s: BodyState, dt: real): BodyState {
    ForcesApplied(Moved(s, dt), dt)
  }

  /** A pass moves the body with its velocity from before the pass and only
      then changes the velocity; mass and inverse mass are untouched. */
  lemma PassMovesWithOldVelocity(s: BodyState, dt: real)
    ensures Pass(s, dt).position == s.position.Plus(s.velocity.Times(dt))
    ensures Pass(s, dt).velocity == s.velocity.Plus(Acceleration(s.mass, s.massInv).Times(dt))
    ensures Pass(s, dt).mass == s.mass && Pass(s, dt).massInv == s.massInv
  {
  }

  /** A static body (zero inverse mass) has zero acceleration after a pass of
      any length, whatever its mass, and keeps its velocity. */
  lemma StaticBodyIsNotAccelerated(s: BodyState, dt: real)
    requires s.massInv == 0.0
    ensures Pass(s, dt).acceleration == Zero
    ensures Pass(s, dt).velocity == s.velocity
  {
  }

  /** Two bodies that differ only in their (non-static, consistent) masses
      end a pass with the same position, velocity and acceleration. */
  lemma MassIndependence(s1: BodyState, s2: BodyState, dt: real)
    requires s1.position == s2.position && s1.velocity == s2.velocity
    requires s1.mass * s1.massInv == 1.0 && s2.mass * s2.massInv == 1.0
    ensures Pass(s1, dt).position == Pass(s2, dt).position
    ensures Pass(s1, dt).velocity == Pass(s2, dt).velocity
    ensures Pass(s1, dt).acceleration == Pass(s2, dt).acceleration == G
  {
  }

  /** What one `update(dt)` does to the accumulated time, and the time step
      of the pass it runs, if it runs one. */
  datatype Tick = Tick(spentTime: real, pass: Option<real>)

  function Accumulate(spent: real, step: real, dt: real): (t: Tick)
    ensures t.pass.Some? <==> spent + dt > step
    ensures t.pass.Some? ==> t.pass.value > step && t.spentTime == 0.0
    ensures spent + dt == t.spentTime + (if t.pass.Some? then t.pass.value else 0.0)
  {
    var total := spent + dt;
    if total > step then Tick(0.0, Some(total)) else Tick(total, None)
  }

  /** With a non-negative step and frame time, the accumulated time stays
      between zero and the step. */
  lemma AccumulateKeepsBudget(spent: real, step: real, dt: real)
    requires 0.0 <= spent <= step && 0.0 <= dt
    ensures 0.0 <= Accumulate(spent, step, dt).spentTime <= step
  {
  }

  /** The accumulated time left after a run of `update` calls, and the time
      steps of the passes they ran, in order. */
  function RunUpdates(spent: real, step: real, dts: seq<real>): (real, seq<real>)
    decreases |dts|
  {
    if dts == [] then (spent, [])
    else
      var t := Accumulate(spent, step, dts[0]);
      var rest := RunUpdates(t.spentTime, step, dts[1..]);
      (rest.0, (if t.pass.Some? then [t.pass.value] else []) + rest.1)
  }

  function Sum(s: seq<real>): real
    decreases |s|
  {
    if s == [] then 0.0 else s[0] + Sum(s[1..])
  }

  /** No time is lost or counted twice: over any run of updates, the time
      integrated by the passes plus the time still accumulated equals the
      starting time plus every frame time. */
  lemma {:induction false} RunConservesTime(spent: real, step: real, dts: seq<real>)
    ensures Sum(RunUpdates(spent, step, dts).1) + RunUpdates(spent, step, dts).0 == spent + Sum(dts)
    decreases |dts|
  {
    if dts != [] {
      var t := Accumulate(spent, step, dts[0]);
      var rest := RunUpdates(t.spentTime, step, dts[1..]);
      RunConservesTime(t.spentTime, step, dts[1..]);
      var head := if t.pass.Some? then [t.pass.value] else [];
      if t.pass.Some? {
        assert (head + rest.1)[0] == t.pass.value && (head + rest.1)[1..] == rest.1;
      } else {
        assert head + rest.1 == rest.1;
      }
    }
  }

  /** Every pass of a run integrates strictly more than one simulation step,
      and with non-negative inputs the accumulated time stays within budget. */
  lemma {:induction false} RunPassesExceedStep(spent: real, step: real, dts: seq<real>)
    requires 0.0 <= spent <= step
    requires forall i :: 0 <= i < |dts| ==> 0.0 <= dts[i]
    ensures forall i :: 0 <= i < |RunUpdates(spent, step, dts).1| ==> RunUpdates(spent, step, dts).1[i] > step
    ensures 0.0 <= RunUpdates(spent, step, dts).0 <= step
    decreases |dts|
  {
    if dts != [] {
      var t := Accumulate(spent, step, dts[0]);
      AccumulateKeepsBudget(spent, step, dts[0]);
      RunPassesExceedStep(t.spentTime, step, dts[1..]);
    }
  }

  /** Three frames of 0.02 s against a step of 1/60 s: each frame on its own
      exceeds the step, so each runs its own pass of 0.02 s. */
  lemma ThreeFramesRunThreePasses()
    ensures RunUpdates(0.0, 1.0 / 60.0, [0.02, 0.02, 0.02]) == (0.0, [0.02, 0.02, 0.02])
  {
    var step := 1.0 / 60.0;
    assert Accumulate(0.0, step, 0.02) == Tick(0.0, Some(0.02));
    assert RunUpdates(0.0, step, []) == (0.0, []);
    assert [0.02][1..] == [] && [0.02] + [] == [0.02];
    assert RunUpdates(0.0, step, [0.02]) == (0.0, [0.02]);
    assert [0.02, 0.02][1..] == [0.02] && [0.02] + [0.02] == [0.02, 0.02];
    assert RunUpdates(0.0, step, [0.02, 0.02]) == (0.0, [0.02, 0.02]);
    assert [0.02, 0.02, 0.02][1..] == [0.02, 0.02] && [0.02] + [0.02, 0.02] == [0.02, 0.02, 0.02];
  }

  /** Two frames of 0.01 s against a step of 1/60 s: the first only
      accumulates, the second runs a single pass of 0.02 s. */
  lemma TwoShortFramesRunOnePass()
    ensures RunUpdates(0.0, 1.0 / 60.0, [0.01, 0.01]) == (0.0, [0.02])
  {
    var step := 1.0 / 60.0;
    assert Accumulate(0.0, step, 0.01) == Tick(0.01, None);
    assert Accumulate(0.01, step, 0.01) == Tick(0.0, Some(0.02));
    assert RunUpdates(0.0, step, []) == (0.0, []);
    assert [0.01][1..] == [] && [0.02] + [] == [0.02];
    assert RunUpdates(0.01, step, [0.01]) == (0.0, [0.02]);
    assert [0.01, 0.01][1..] == [0.01] && [] + [0.02] == [0.02];
  }

  /** Three passes of 0.02 s over a unit-mass body at rest at (0, 5, 0). */
  lemma UnitMassFalls(s0: BodyState)
    requires s0 == BodyState(Vec3(0.0, 5.0, 0.0), Zero, Zero, 1.0, 1.0)
    ensures Pass(s0, 0.02) == BodyState(Vec3(0.0, 5.0, 0.0), Vec3(0.0, -0.2, 0.0), G, 1.0, 1.0)
    ensures Pass(Pass(s0, 0.02), 0.02) == BodyState(Vec3(0.0, 4.996, 0.0), Vec3(0.0, -0.4, 0.0), G, 1.0, 1.0)
    ensures Pass(Pass(Pass(s0, 0.02), 0.02), 0.02) == BodyState(Vec3(0.0, 4.988, 0.0), Vec3(0.0, -0.6, 0.0), G, 1.0, 1.0)
  {
    UnitMassPass(Vec3(0.0, 5.0, 0.0), Zero, Zero, 0.02);
    UnitMassPass(Vec3(0.0, 5.0, 0.0), Vec3(0.0, -0.2, 0.0), G, 0.02);
    UnitMassPass(Vec3(0.0, 4.996, 0.0), Vec3(0.0, -0.4, 0.0), G, 0.02);
  }

  /** A pass over a body of unit mass and unit inverse mass, whatever its
      state: it moves with its old velocity and then gains gravity times dt. */
  lemma UnitMassPass(p: Vec3, v: Vec3, a: Vec3, dt: real)
    ensures Pass(BodyState(p, v, a, 1.0, 1.0), dt) == BodyState(p.Plus(v.Times(dt)), v.Plus(G.Times(dt)), G, 1.0, 1.0)
  {
    assert Acceleration(1.0, 1.0) == G;
  }

  class RigidBody {
    var position: Vec3
    var velocity: Vec3
    var acceleration: Vec3
    var mass: real
    var massInv: real

    constructor (position: Vec3, velocity: Vec3, mass: real, massInv: real)
      ensures State() == BodyState(position, velocity, Zero, mass, massInv)
    {
      this.position := position;
      this.velocity := velocity;
      this.acceleration := Zero;
      this.mass := mass;
      this.massInv := massInv;
    }

    function State(): BodyState
      reads this
    {
      BodyState(position, velocity, acceleration, mass, massInv)
    }

    /** This body's share of `moveBodies`: it moves by its velocity times dt. */
    method Move(dt: real)
      modifies this
      ensures State() == Moved(old(State()), dt)
    {
      position := position.Plus(velocity.Times(dt));
    }

    /** This body's share of `applyForces`: its acceleration is set from
        gravity and its masses, then its velocity gains acceleration times dt. */
    method ApplyForce(dt: real)
      modifies this
      ensures State() == ForcesApplied(old(State()), dt)
    {
      acceleration := Acceleration(mass, massInv);
      velocity := velocity.Plus(acceleration.Times(dt));
    }
  }

  class PhysicsEngine {
    var simulationStep: real
    var spentTime: real
    /** Non-owning references; a set, so adding a body twice keeps one copy. */
    var bodies: set<RigidBody>

    /** The C++ default constructor leaves the two floats indeterminate until
        `init`; only the empty body set is promised. */
    constructor ()
      ensures bodies == {}
    {
      bodies := {};
    }

    method Init(simulationStep: real)
      modifies this
      ensures this.simulationStep == simulationStep && spentTime == 0.0
      ensures bodies == old(bodies)
    {
      spentTime := 0.0;
      this.simulationStep := simulationStep;
    }

    /** Zeroes the step and the accumulated time and forgets every body (the
        bodies themselves are not touched). */
    method Deinit()
      modifies this
      ensures simulationStep == 0.0 && spentTime == 0.0 && bodies == {}
    {
      spentTime := 0.0;
      simulationStep := 0.0;
      bodies := {};
    }

    method AddRigidBody(body: RigidBody)
      modifies this
      ensures bodies == old(bodies) + {body}
      ensures simulationStep == old(simulationStep) && spentTime == old(spentTime)
    {
      bodies := bodies + {body};
    }

    /** Accumulates `dt`; if the sum exceeds the step, one pass runs over
        every registered body with the whole sum and the sum restarts at
        zero. Bodies that were never added are outside the frame and so are
        not touched. */
    method Update(dt: real)
      modifies this, bodies
      ensures simulationStep == old(simulationStep) && bodies == old(bodies)
      ensures spentTime == Accumulate(old(spentTime), simulationStep, dt).spentTime
      ensures Accumulate(old(spentTime), simulationStep, dt).pass.None? ==>
        forall b :: b in bodies ==> b.State() == old(b.State())
      ensures Accumulate(old(spentTime), simulationStep, dt).pass.Some? ==>
        forall b :: b in bodies ==>
          b.State() == Pass(old(b.State()), Accumulate(old(spentTime), simulationStep, dt).pass.value)
    {
      spentTime := spentTime + dt;
      if spentTime > simulationStep {
        Simulate(spentTime);
        spentTime := 0.0;
      }
    }

    method Simulate(dt: real)
      modifies bodies
      ensures forall b :: b in bodies ==> b.State() == Pass(old(b.State()), dt)
    {
      MoveBodies(dt);
      ApplyForces(dt);
    }

    method MoveBodies(dt: real)
      modifies bodies
      ensures forall b :: b in bodies ==> b.State() == Moved(old(b.State()), dt)
    {
      var pending := bodies;
      while pending != {}
        invariant pending <= bodies
        invariant forall b :: b in bodies && b !in pending ==> b.State() == Moved(old(b.State()), dt)
        invariant forall b :: b in pending ==> b.State() == old(b.State())
        decreases pending
      {
        var body :| body in pending;
        body.Move(dt);
        pending := pending - {body};
      }
    }

    method ApplyForces(dt: real)
      modifies bodies
      ensures forall b :: b in bodies ==> b.State() == ForcesApplied(old(b.State()), dt)
    {
      var pending := bodies;
      while pending != {}
        invariant pending <= bodies
        invariant forall b :: b in bodies && b !in pending ==> b.State() == ForcesApplied(old(b.State()), dt)
        invariant forall b :: b in pending ==> b.State() == old(b.State())
        decreases pending
      {
        var body :| body in pending;
        body.ApplyForce(dt);
        pending := pending - {body};
      }
    }
  }

  /** The updates of the scenarios below against a step of 1/60 s. */
  lemma SixtiethTicks()
    ensures Accumulate(0.0, 1.0 / 60.0, 0.01) == Tick(0.01, None)
    ensures Accumulate(0.01, 1.0 / 60.0, 0.01) == Tick(0.0, Some(0.02))
    ensures Accumulate(0.0, 1.0 / 60.0, 0.02) == Tick(0.0, Some(0.02))
  {
  }

  /** Step 1/60 s, a unit-mass body at rest at (0, 5, 0), two frames of 0.01 s:
      the first frame changes nothing but the accumulated time; the second
      runs one pass of 0.02 s, which leaves the position (the old velocity
      was zero), gives the body velocity (0, -0.2, 0) and resets the
      accumulated time. */
  method TwoShortFrames()
    returns (spentAfterFirst: real, firstState: BodyState, spentAfterSecond: real, secondState: BodyState)
    ensures spentAfterFirst == 0.01
    ensures firstState == BodyState(Vec3(0.0, 5.0, 0.0), Zero, Zero, 1.0, 1.0)
    ensures spentAfterSecond == 0.0
    ensures secondState == BodyState(Vec3(0.0, 5.0, 0.0), Vec3(0.0, -0.2, 0.0), G, 1.0, 1.0)
  {
    var engine := new PhysicsEngine();
    engine.Init(1.0 / 60.0);
    var ball := new RigidBody(Vec3(0.0, 5.0, 0.0), Zero, 1.0, 1.0);
    engine.AddRigidBody(ball);
    var s0 := ball.State();
    SixtiethTicks();
    UnitMassFalls(s0);
    engine.Update(0.01);
    spentAfterFirst, firstState := engine.spentTime, ball.State();
    assert ball in engine.bodies;
    engine.Update(0.01);
    spentAfterSecond, secondState := engine.spentTime, ball.State();
    assert secondState == Pass(s0, 0.02);
  }

  /** Step 1/60 s, the same body, three frames of 0.02 s: every frame runs a
      pass of its own, so the body falls during the second and third passes. */
  method ThreeFrames() returns (spent: real, state: BodyState)
    ensures spent == 0.0
    ensures state == BodyState(Vec3(0.0, 4.988, 0.0), Vec3(0.0, -0.6, 0.0), G, 1.0, 1.0)
  {
    var engine := new PhysicsEngine();
    engine.Init(1.0 / 60.0);
    var ball := new RigidBody(Vec3(0.0, 5.0, 0.0), Zero, 1.0, 1.0);
    engine.AddRigidBody(ball);
    var s0 := ball.State();
    SixtiethTicks();
    UnitMassFalls(s0);
    assert ball in engine.bodies;
    engine.Update(0.02);
    var s1 := ball.State();
    assert s1 == Pass(s0, 0.02);
    engine.Update(0.02);
    var s2 := ball.State();
    assert s2 == Pass(s1, 0.02);
    engine.Update(0.02);
    spent, state := engine.spentTime, ball.State();
    assert state == Pass(s2, 0.02);
  }

  /** Adding a body twice registers it once, so a pass integrates it once;
      a body that was never added is left as it was. */
  method AddTwiceIntegratesOnce() returns (added: BodyState, other: BodyState)
    ensures added == BodyState(Vec3(0.0, 5.0, 0.0), Vec3(0.0, -0.2, 0.0), G, 1.0, 1.0)
    ensures other == BodyState(Vec3(0.0, 5.0, 0.0), Zero, Zero, 1.0, 1.0)
  {
    var engine := new PhysicsEngine();
    engine.Init(1.0 / 60.0);
    var ball := new RigidBody(Vec3(0.0, 5.0, 0.0), Zero, 1.0, 1.0);
    var bystander := new RigidBody(Vec3(0.0, 5.0, 0.0), Zero, 1.0, 1.0);
    engine.AddRigidBody(ball);
    engine.AddRigidBody(ball);
    assert engine.bodies == {ball};
    var s0 := ball.State();
    SixtiethTicks();
    UnitMassFalls(s0);
    engine.Update(0.02);
    added, other := ball.State(), bystander.State();
    assert added == Pass(s0, 0.02);
  }
}
