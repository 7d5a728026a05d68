/**
 * One frame of the animation loop of animation.js. Every body's mesh turns
 * about its y axis by `rotationSpeed * delta * multiplier`; every body with a
 * positive orbital radius has its group placed on its orbit at the angle
 * `elapsed * orbitalSpeed * multiplier`, in x and z only. Then, when a body is
 * selected, the camera target moves to the world position of its mesh.
 */
module Animation {
  import opened Wrappers
  import opened Registry
  import opened Scene
  import Interaction

  /** The rotation step of one body's mesh: y grows by `rotationSpeed * delta * multiplier`. */
  function Spin(n: Node, d: BodySpec, delta: real): Node
  {
    n.(rotation := n.rotation.(y := n.rotation.y + d.rotationSpeed * delta * GlobalSpeedMultiplier))
  }

  /** The orbital angle of a body at time `elapsed`. */
  function OrbitalAngle(d: BodySpec, elapsed: real): real
  {
    elapsed * d.orbitalSpeed * GlobalSpeedMultiplier
  }

  /** The point on a body's orbit at time `elapsed`, relative to the centre it orbits. */
  function OrbitPoint(d: BodySpec, elapsed: real, trig: Trig): Vec3
  {
    Vec3(trig.cos(OrbitalAngle(d, elapsed)) * d.orbitalRadius, 0.0, trig.sin(OrbitalAngle(d, elapsed)) * d.orbitalRadius)
  }

  /** The orbit step of one body's group: x and z are placed on the circle when the radius is positive. */
  function Orbit(n: Node, d: BodySpec, elapsed: real, trig: Trig): Node
  {
    if d.orbitalRadius > 0.0 then
      var angle := OrbitalAngle(d, elapsed);
      n.(position := n.position.(x := trig.cos(angle) * d.orbitalRadius, z := trig.sin(angle) * d.orbitalRadius))
    else n
  }

  /** Every body's mesh and group are nodes of the store. */
  predicate BodiesInRange(nodes: seq<Node>, bodies: seq<CelestialBody>)
  {
    forall i :: 0 <= i < |bodies| ==> bodies[i].mesh < |nodes| && bodies[i].group < |nodes|
  }

  /** The loop body for one entry of `celestialBodies`: rotation first, then orbit. */
  function UpdateBody(nodes: seq<Node>, cb: CelestialBody, delta: real, elapsed: real, trig: Trig): seq<Node>
    requires cb.mesh < |nodes| && cb.group < |nodes|
  {
    var spun := nodes[cb.mesh := Spin(nodes[cb.mesh], cb.data, delta)];
    spun[cb.group := Orbit(spun[cb.group], cb.data, elapsed, trig)]
  }

  /** `celestialBodies.forEach(...)`: the loop body applied to each entry in order. */
  function UpdateAll(nodes: seq<Node>, bodies: seq<CelestialBody>, delta: real, elapsed: real, trig: Trig): (r: seq<Node>)
    requires BodiesInRange(nodes, bodies)
    ensures |r| == |nodes|
    decreases |bodies|
  {
    if bodies == [] then nodes
    else
      var front := bodies[..|bodies| - 1];
      assert BodiesInRange(nodes, front) by {
        forall i | 0 <= i < |front| ensures front[i].mesh < |nodes| && front[i].group < |nodes| {
          assert front[i] == bodies[i];
        }
      }
      UpdateBody(UpdateAll(nodes, front, delta, elapsed, trig), bodies[|bodies| - 1], delta, elapsed, trig)
  }

  /** The camera target after the follow step: the selected mesh's world position, else unchanged. */
  function FollowTarget(nodes: seq<Node>, selected: Option<nat>, target: Vec3): Vec3
    requires Tree(nodes) && (selected.Some? ==> selected.value < |nodes|)
  {
    if selected.Some? then WorldPosition(nodes, selected.value) else target
  }

  /** Node `k` is the mesh or the group of some body. */
  ghost predicate IsBodyNode(bodies: seq<CelestialBody>, k: nat)
  {
    exists i :: 0 <= i < |bodies| && (bodies[i].mesh == k || bodies[i].group == k)
  }

  /** One frame of the time line: `clock.getDelta()` and `clock.getElapsedTime()`. */
  datatype Frame = Frame(delta: real, elapsed: real)

  /** The scene after a sequence of frames. */
  function Run(nodes: seq<Node>, bodies: seq<CelestialBody>, frames: seq<Frame>, trig: Trig): (r: seq<Node>)
    requires BodiesInRange(nodes, bodies)
    ensures |r| == |nodes|
    decreases |frames|
  {
    if frames == [] then nodes
    else
      var f := frames[|frames| - 1];
      UpdateAll(Run(nodes, bodies, frames[..|frames| - 1], trig), bodies, f.delta, f.elapsed, trig)
  }

  /** The total time the frames advance. */
  function TotalDelta(frames: seq<Frame>): real
    decreases |frames|
  {
    if frames == [] then 0.0 else TotalDelta(frames[..|frames| - 1]) + frames[|frames| - 1].delta
  }

  // ---------------------------------------------------------------------------
  // What one body's step writes.

  /** The orbit step writes only x and z of the group's position, and only for a positive radius. */
  lemma OrbitWrites(n: Node, d: BodySpec, elapsed: real, trig: Trig)
    ensures var n' := Orbit(n, d, elapsed, trig);
      && n'.kind == n.kind && n'.parent == n.parent && n'.name == n.name && n'.userData == n.userData
      && n'.rotation == n.rotation
      && n'.position.y == n.position.y
      && (d.orbitalRadius > 0.0 ==>
            n'.position.x == trig.cos(OrbitalAngle(d, elapsed)) * d.orbitalRadius &&
            n'.position.z == trig.sin(OrbitalAngle(d, elapsed)) * d.orbitalRadius)
      && (d.orbitalRadius <= 0.0 ==> n' == n)
  {
  }

  /** The orbit step from a group at the origin, as the builder leaves every group. */
  lemma OrbitFromOrigin(n: Node, d: BodySpec, elapsed: real, trig: Trig)
    requires n.position == Origin
    ensures Orbit(n, d, elapsed, trig).position == (if d.orbitalRadius > 0.0 then OrbitPoint(d, elapsed, trig) else Origin)
  {
  }

  /** The orbit step puts the group at distance `orbitalRadius` from its parent's centre in the x-z plane. */
  lemma OrbitOnCircle(n: Node, d: BodySpec, elapsed: real, trig: Trig)
    requires Pythagorean(trig) && d.orbitalRadius > 0.0
    ensures var p := Orbit(n, d, elapsed, trig).position;
      p.x * p.x + p.z * p.z == d.orbitalRadius * d.orbitalRadius
  {
    var c := trig.cos(OrbitalAngle(d, elapsed));
    var s := trig.sin(OrbitalAngle(d, elapsed));
    assert c * c + s * s == 1.0;
    calc {
      (c * d.orbitalRadius) * (c * d.orbitalRadius) + (s * d.orbitalRadius) * (s * d.orbitalRadius);
      (c * c + s * s) * (d.orbitalRadius * d.orbitalRadius);
      d.orbitalRadius * d.orbitalRadius;
    }
  }

  // ---------------------------------------------------------------------------
  // What a frame writes.

  lemma DistinctFront(nodes: seq<Node>, bodies: seq<CelestialBody>)
    requires DistinctBodyNodes(nodes, bodies) && bodies != []
    ensures DistinctBodyNodes(nodes, bodies[..|bodies| - 1])
  {
    var front := bodies[..|bodies| - 1];
    assert forall i :: 0 <= i < |front| ==> front[i] == bodies[i];
  }

  /** One body's step writes its mesh and its group and no other node. */
  lemma UpdateBodyEffect(nodes: seq<Node>, cb: CelestialBody, delta: real, elapsed: real, trig: Trig)
    requires cb.mesh < |nodes| && cb.group < |nodes| && cb.mesh != cb.group
    ensures var r := UpdateBody(nodes, cb, delta, elapsed, trig);
      && |r| == |nodes|
      && r[cb.mesh] == Spin(nodes[cb.mesh], cb.data, delta)
      && r[cb.group] == Orbit(nodes[cb.group], cb.data, elapsed, trig)
      && forall k :: 0 <= k < |nodes| && k != cb.mesh && k != cb.group ==> r[k] == nodes[k]
  {
  }

  /** The last body's nodes are nobody else's. */
  lemma LastBodyApart(nodes: seq<Node>, bodies: seq<CelestialBody>)
    requires DistinctBodyNodes(nodes, bodies) && bodies != []
    ensures var last := bodies[|bodies| - 1];
      && last.mesh != last.group
      && !IsBodyNode(bodies[..|bodies| - 1], last.mesh)
      && !IsBodyNode(bodies[..|bodies| - 1], last.group)
  {
    var front := bodies[..|bodies| - 1];
    var last := bodies[|bodies| - 1];
    forall i | 0 <= i < |front|
      ensures front[i].mesh != last.mesh && front[i].group != last.mesh
      ensures front[i].mesh != last.group && front[i].group != last.group
    {
      assert front[i] == bodies[i];
    }
  }

  /** A node that is no body's is no earlier body's and not the last body's. */
  lemma NotBodyNodeFront(bodies: seq<CelestialBody>, k: nat)
    requires bodies != [] && !IsBodyNode(bodies, k)
    ensures !IsBodyNode(bodies[..|bodies| - 1], k)
    ensures bodies[|bodies| - 1].mesh != k && bodies[|bodies| - 1].group != k
  {
    var front := bodies[..|bodies| - 1];
    forall i | 0 <= i < |front| ensures front[i].mesh != k && front[i].group != k {
      assert front[i] == bodies[i];
    }
  }

  /**
   * A frame spins each body's mesh once and orbits its group once, and leaves
   * every node that is no body's mesh or group as it was.
   */
  lemma {:induction false} UpdateAllEffect(nodes: seq<Node>, bodies: seq<CelestialBody>,
                                           delta: real, elapsed: real, trig: Trig)
    requires DistinctBodyNodes(nodes, bodies)
    ensures var r := UpdateAll(nodes, bodies, delta, elapsed, trig);
      && (forall i :: 0 <= i < |bodies| ==>
            r[bodies[i].mesh] == Spin(nodes[bodies[i].mesh], bodies[i].data, delta) &&
            r[bodies[i].group] == Orbit(nodes[bodies[i].group], bodies[i].data, elapsed, trig))
      && (forall k :: 0 <= k < |nodes| && !IsBodyNode(bodies, k) ==> r[k] == nodes[k])
    decreases |bodies|
  {
    if bodies != [] {
      var front := bodies[..|bodies| - 1];
      var last := bodies[|bodies| - 1];
      DistinctFront(nodes, bodies);
      UpdateAllEffect(nodes, front, delta, elapsed, trig);
      LastBodyApart(nodes, bodies);
      var mid := UpdateAll(nodes, front, delta, elapsed, trig);
      var r := UpdateAll(nodes, bodies, delta, elapsed, trig);
      assert r == UpdateBody(mid, last, delta, elapsed, trig);
      UpdateBodyEffect(mid, last, delta, elapsed, trig);
      forall i | 0 <= i < |bodies|
        ensures r[bodies[i].mesh] == Spin(nodes[bodies[i].mesh], bodies[i].data, delta)
        ensures r[bodies[i].group] == Orbit(nodes[bodies[i].group], bodies[i].data, elapsed, trig)
      {
        if i < |front| {
          assert bodies[i] == front[i];
          assert bodies[i].mesh != last.mesh && bodies[i].mesh != last.group;
          assert bodies[i].group != last.mesh && bodies[i].group != last.group;
        }
      }
      forall k | 0 <= k < |nodes| && !IsBodyNode(bodies, k)
        ensures r[k] == nodes[k]
      {
        NotBodyNodeFront(bodies, k);
      }
    }
  }

  /** Node `k` is the mesh of some body. */
  ghost predicate IsMeshNode(bodies: seq<CelestialBody>, k: nat)
  {
    exists i :: 0 <= i < |bodies| && bodies[i].mesh == k
  }

  /** After a frame a node has its kind, parent, name and data; only meshes may have turned. */
  lemma NodeAfterFrame(nodes: seq<Node>, bodies: seq<CelestialBody>, delta: real, elapsed: real, trig: Trig, k: nat)
    requires DistinctBodyNodes(nodes, bodies) && k < |nodes|
    ensures var r := UpdateAll(nodes, bodies, delta, elapsed, trig);
      && r[k].kind == nodes[k].kind && r[k].parent == nodes[k].parent
      && r[k].name == nodes[k].name && r[k].userData == nodes[k].userData
      && (r[k].rotation == nodes[k].rotation || IsMeshNode(bodies, k))
  {
    UpdateAllEffect(nodes, bodies, delta, elapsed, trig);
    if IsBodyNode(bodies, k) {
      var i :| 0 <= i < |bodies| && (bodies[i].mesh == k || bodies[i].group == k);
    }
  }

  /** A frame changes transforms only: the store keeps its shape, names and data. */
  lemma UpdateKeepsStructure(nodes: seq<Node>, bodies: seq<CelestialBody>, delta: real, elapsed: real, trig: Trig)
    requires DistinctBodyNodes(nodes, bodies)
    ensures SameStructure(nodes, UpdateAll(nodes, bodies, delta, elapsed, trig))
  {
    forall k | 0 <= k < |nodes|
      ensures UpdateAll(nodes, bodies, delta, elapsed, trig)[k].kind == nodes[k].kind
      ensures UpdateAll(nodes, bodies, delta, elapsed, trig)[k].parent == nodes[k].parent
      ensures UpdateAll(nodes, bodies, delta, elapsed, trig)[k].name == nodes[k].name
      ensures UpdateAll(nodes, bodies, delta, elapsed, trig)[k].userData == nodes[k].userData
    {
      NodeAfterFrame(nodes, bodies, delta, elapsed, trig, k);
    }
  }

  /** Parents stay unrotated, because the only nodes a frame turns are meshes, which have no children. */
  lemma UpdateKeepsRigid(nodes: seq<Node>, bodies: seq<CelestialBody>, delta: real, elapsed: real, trig: Trig)
    requires BodiesOk(nodes, bodies)
    ensures RigidAncestors(UpdateAll(nodes, bodies, delta, elapsed, trig))
  {
    var r := UpdateAll(nodes, bodies, delta, elapsed, trig);
    forall i | 0 <= i < |r| && r[i].parent.Some? && r[i].parent.value < |r|
      ensures r[r[i].parent.value].rotation == Origin
    {
      var p := r[i].parent.value;
      NodeAfterFrame(nodes, bodies, delta, elapsed, trig, i);
      NodeAfterFrame(nodes, bodies, delta, elapsed, trig, p);
      forall j | 0 <= j < |bodies| ensures bodies[j].mesh != p {
        assert Leaf(nodes, bodies[j].mesh);
      }
    }
  }

  /**
   * A frame keeps the body invariant and the scene's structure: no node is
   * added, re-parented, renamed or given other data, and the tree stays rigid.
   */
  lemma UpdateKeepsInvariant(nodes: seq<Node>, bodies: seq<CelestialBody>, delta: real, elapsed: real, trig: Trig)
    requires BodiesOk(nodes, bodies)
    ensures var r := UpdateAll(nodes, bodies, delta, elapsed, trig);
      && SameStructure(nodes, r)
      && BodiesOk(r, bodies)
      && (SceneOk(nodes) ==> SceneOk(r))
  {
    var r := UpdateAll(nodes, bodies, delta, elapsed, trig);
    UpdateKeepsStructure(nodes, bodies, delta, elapsed, trig);
    UpdateKeepsRigid(nodes, bodies, delta, elapsed, trig);
    UpdateAllEffect(nodes, bodies, delta, elapsed, trig);
    assert r[0] == nodes[0] by {
      assert !IsBodyNode(bodies, 0);
    }
    forall i | 0 <= i < |bodies|
      ensures r[bodies[i].mesh].position == Origin
      ensures Leaf(r, bodies[i].mesh)
    {
      assert Leaf(nodes, bodies[i].mesh);
    }
  }

  /** Positions after a frame do not depend on `delta`. */
  lemma PositionsIgnoreDelta(nodes: seq<Node>, bodies: seq<CelestialBody>, delta1: real, delta2: real,
                             elapsed: real, trig: Trig)
    requires DistinctBodyNodes(nodes, bodies)
    ensures forall k :: 0 <= k < |nodes| ==>
      UpdateAll(nodes, bodies, delta1, elapsed, trig)[k].position == UpdateAll(nodes, bodies, delta2, elapsed, trig)[k].position
  {
    UpdateAllEffect(nodes, bodies, delta1, elapsed, trig);
    UpdateAllEffect(nodes, bodies, delta2, elapsed, trig);
    forall k | 0 <= k < |nodes|
      ensures UpdateAll(nodes, bodies, delta1, elapsed, trig)[k].position
           == UpdateAll(nodes, bodies, delta2, elapsed, trig)[k].position
    {
      if IsBodyNode(bodies, k) {
        var i :| 0 <= i < |bodies| && (bodies[i].mesh == k || bodies[i].group == k);
      }
    }
  }

  /** A second frame at the same elapsed time leaves every position where the first put it. */
  lemma OrbitIdempotent(nodes: seq<Node>, bodies: seq<CelestialBody>, delta1: real, delta2: real,
                        elapsed: real, trig: Trig)
    requires DistinctBodyNodes(nodes, bodies)
    ensures var once := UpdateAll(nodes, bodies, delta1, elapsed, trig);
      |once| == |nodes| &&
      forall k :: 0 <= k < |nodes| ==>
        UpdateAll(once, bodies, delta2, elapsed, trig)[k].position == once[k].position
  {
    var once := UpdateAll(nodes, bodies, delta1, elapsed, trig);
    UpdateAllEffect(nodes, bodies, delta1, elapsed, trig);
    assert DistinctBodyNodes(once, bodies);
    UpdateAllEffect(once, bodies, delta2, elapsed, trig);
    forall k | 0 <= k < |nodes|
      ensures UpdateAll(once, bodies, delta2, elapsed, trig)[k].position == once[k].position
    {
      if IsBodyNode(bodies, k) {
        var i :| 0 <= i < |bodies| && (bodies[i].mesh == k || bodies[i].group == k);
      }
    }
  }

  /** The sum of the per-frame turns of a mesh with rotation speed `rs`. */
  function TotalTurn(rs: real, frames: seq<Frame>): real
    decreases |frames|
  {
    if frames == [] then 0.0
    else TotalTurn(rs, frames[..|frames| - 1]) + rs * frames[|frames| - 1].delta * GlobalSpeedMultiplier
  }

  /** The per-frame turns add up to the turn over the total time. */
  lemma {:induction false} TotalTurnIsTurnOverTotal(rs: real, frames: seq<Frame>)
    ensures TotalTurn(rs, frames) == rs * TotalDelta(frames) * GlobalSpeedMultiplier
    decreases |frames|
  {
    if frames != [] {
      var front := frames[..|frames| - 1];
      var d := frames[|frames| - 1].delta;
      TotalTurnIsTurnOverTotal(rs, front);
      calc {
        TotalTurn(rs, frames);
        rs * TotalDelta(front) * GlobalSpeedMultiplier + rs * d * GlobalSpeedMultiplier;
        rs * (TotalDelta(front) + d) * GlobalSpeedMultiplier;
      }
    }
  }

  /** The frame before the last leaves the body invariant the last frame needs. */
  lemma RunKeepsDistinct(nodes: seq<Node>, bodies: seq<CelestialBody>, frames: seq<Frame>, trig: Trig)
    requires DistinctBodyNodes(nodes, bodies)
    ensures DistinctBodyNodes(Run(nodes, bodies, frames, trig), bodies)
  {
  }

  /** Over any sequence of frames, a body's mesh turns by the sum of the frames' turns and stays where it was. */
  lemma {:induction false} RunRotatesOne(nodes: seq<Node>, bodies: seq<CelestialBody>, frames: seq<Frame>, trig: Trig, i: nat)
    requires DistinctBodyNodes(nodes, bodies) && i < |bodies|
    ensures var r := Run(nodes, bodies, frames, trig);
      && r[bodies[i].mesh].rotation.y == nodes[bodies[i].mesh].rotation.y + TotalTurn(bodies[i].data.rotationSpeed, frames)
      && r[bodies[i].mesh].position == nodes[bodies[i].mesh].position
    decreases |frames|
  {
    if frames != [] {
      var front := frames[..|frames| - 1];
      var f := frames[|frames| - 1];
      RunRotatesOne(nodes, bodies, front, trig, i);
      var mid := Run(nodes, bodies, front, trig);
      var r := Run(nodes, bodies, frames, trig);
      var m := bodies[i].mesh;
      var rs := bodies[i].data.rotationSpeed;
      assert r[m] == Spin(mid[m], bodies[i].data, f.delta) by {
        RunKeepsDistinct(nodes, bodies, front, trig);
        UpdateAllEffect(mid, bodies, f.delta, f.elapsed, trig);
        assert r == UpdateAll(mid, bodies, f.delta, f.elapsed, trig);
      }
      assert r[m].rotation.y == mid[m].rotation.y + rs * f.delta * GlobalSpeedMultiplier;
      assert mid[m].rotation.y == nodes[m].rotation.y + TotalTurn(rs, front);
      assert TotalTurn(rs, frames) == TotalTurn(rs, front) + rs * f.delta * GlobalSpeedMultiplier;
    }
  }

  /** `RunRotatesOne` for every body at once. */
  lemma RunRotates(nodes: seq<Node>, bodies: seq<CelestialBody>, frames: seq<Frame>, trig: Trig)
    requires DistinctBodyNodes(nodes, bodies)
    ensures var r := Run(nodes, bodies, frames, trig);
      forall i :: 0 <= i < |bodies| ==>
        && r[bodies[i].mesh].rotation.y
           == nodes[bodies[i].mesh].rotation.y + bodies[i].data.rotationSpeed * TotalDelta(frames) * GlobalSpeedMultiplier
        && r[bodies[i].mesh].position == nodes[bodies[i].mesh].position
  {
    forall i | 0 <= i < |bodies|
      ensures var r := Run(nodes, bodies, frames, trig);
        && r[bodies[i].mesh].rotation.y
           == nodes[bodies[i].mesh].rotation.y + bodies[i].data.rotationSpeed * TotalDelta(frames) * GlobalSpeedMultiplier
        && r[bodies[i].mesh].position == nodes[bodies[i].mesh].position
    {
      RunRotatesOne(nodes, bodies, frames, trig, i);
      TotalTurnIsTurnOverTotal(bodies[i].data.rotationSpeed, frames);
    }
  }

  /** After any non-empty sequence of frames, each group is where the last frame's elapsed time puts it. */
  lemma RunPositions(nodes: seq<Node>, bodies: seq<CelestialBody>, frames: seq<Frame>, trig: Trig)
    requires DistinctBodyNodes(nodes, bodies) && frames != []
    ensures var r := Run(nodes, bodies, frames, trig);
      forall i :: 0 <= i < |bodies| ==>
        r[bodies[i].group].position
        == Orbit(nodes[bodies[i].group], bodies[i].data, frames[|frames| - 1].elapsed, trig).position
  {
    var front := frames[..|frames| - 1];
    var f := frames[|frames| - 1];
    var mid := Run(nodes, bodies, front, trig);
    RunKeepsDistinct(nodes, bodies, front, trig);
    UpdateAllEffect(mid, bodies, f.delta, f.elapsed, trig);
    RunGroupsKeepOffAxis(nodes, bodies, front, trig);
  }

  /** Frames leave every group's y coordinate, and the whole of a non-orbiting group, as they were. */
  lemma {:induction false} RunGroupsKeepOffAxis(nodes: seq<Node>, bodies: seq<CelestialBody>, frames: seq<Frame>, trig: Trig)
    requires DistinctBodyNodes(nodes, bodies)
    ensures var r := Run(nodes, bodies, frames, trig);
      forall i :: 0 <= i < |bodies| ==>
        && r[bodies[i].group].position.y == nodes[bodies[i].group].position.y
        && (bodies[i].data.orbitalRadius <= 0.0 ==> r[bodies[i].group] == nodes[bodies[i].group])
    decreases |frames|
  {
    if frames != [] {
      var front := frames[..|frames| - 1];
      var f := frames[|frames| - 1];
      RunGroupsKeepOffAxis(nodes, bodies, front, trig);
      RunKeepsDistinct(nodes, bodies, front, trig);
      UpdateAllEffect(Run(nodes, bodies, front, trig), bodies, f.delta, f.elapsed, trig);
    }
  }

  /**
   * After a frame, a group that hangs in the scene with y = 0 is at its orbit
   * point when its radius is positive, and where it was otherwise.
   */
  lemma GroupAfterFrame(nodes: seq<Node>, bodies: seq<CelestialBody>, delta: real, elapsed: real, trig: Trig, p: nat)
    requires DistinctBodyNodes(nodes, bodies) && p < |bodies|
    requires nodes[bodies[p].group].position.y == 0.0
    ensures var r := UpdateAll(nodes, bodies, delta, elapsed, trig);
      var d := bodies[p].data;
      && r[bodies[p].group].parent == nodes[bodies[p].group].parent
      && r[bodies[p].group].position
         == (if d.orbitalRadius > 0.0 then OrbitPoint(d, elapsed, trig) else nodes[bodies[p].group].position)
  {
    UpdateAllEffect(nodes, bodies, delta, elapsed, trig);
    OrbitWrites(nodes[bodies[p].group], bodies[p].data, elapsed, trig);
  }

  /**
   * After a frame, a body whose group hangs in the scene at height 0 sits at
   * its orbit point when its radius is positive, and where its group was
   * otherwise. The group may have been moved by any earlier frame.
   */
  lemma RootAfterFrame(nodes: seq<Node>, bodies: seq<CelestialBody>, delta: real, elapsed: real, trig: Trig, p: nat)
    requires SceneOk(nodes) && BodiesOk(nodes, bodies) && p < |bodies|
    requires nodes[bodies[p].group].parent == Some(0) && nodes[bodies[p].group].position.y == 0.0
    ensures var r := UpdateAll(nodes, bodies, delta, elapsed, trig);
      var d := bodies[p].data;
      && Tree(r)
      && WorldPosition(r, bodies[p].mesh)
         == (if d.orbitalRadius > 0.0 then OrbitPoint(d, elapsed, trig) else nodes[bodies[p].group].position)
  {
    var r := UpdateAll(nodes, bodies, delta, elapsed, trig);
    var g := bodies[p].group;
    assert SceneOk(r) && BodiesOk(r, bodies) by {
      UpdateKeepsInvariant(nodes, bodies, delta, elapsed, trig);
    }
    GroupAfterFrame(nodes, bodies, delta, elapsed, trig, p);
    WorldPositionOfRootMesh(r, bodies[p].mesh, g);
  }

  /**
   * After a frame, a moon whose group hangs at height 0 in its planet's group,
   * which hangs in the scene at height 0, sits at the planet's point plus its
   * own: each an orbit point when the radius is positive, and the group's
   * earlier position otherwise.
   */
  lemma MoonAfterFrame(nodes: seq<Node>, bodies: seq<CelestialBody>, delta: real, elapsed: real, trig: Trig,
                       p: nat, m: nat)
    requires SceneOk(nodes) && BodiesOk(nodes, bodies) && p < |bodies| && m < |bodies|
    requires nodes[bodies[p].group].parent == Some(0) && nodes[bodies[p].group].position.y == 0.0
    requires nodes[bodies[m].group].parent == Some(bodies[p].group) && nodes[bodies[m].group].position.y == 0.0
    ensures var r := UpdateAll(nodes, bodies, delta, elapsed, trig);
      var dp := bodies[p].data;
      var dm := bodies[m].data;
      && Tree(r)
      && WorldPosition(r, bodies[m].mesh)
         == Add(if dp.orbitalRadius > 0.0 then OrbitPoint(dp, elapsed, trig) else nodes[bodies[p].group].position,
                if dm.orbitalRadius > 0.0 then OrbitPoint(dm, elapsed, trig) else nodes[bodies[m].group].position)
  {
    var r := UpdateAll(nodes, bodies, delta, elapsed, trig);
    assert SceneOk(r) && BodiesOk(r, bodies) by {
      UpdateKeepsInvariant(nodes, bodies, delta, elapsed, trig);
    }
    GroupAfterFrame(nodes, bodies, delta, elapsed, trig, p);
    GroupAfterFrame(nodes, bodies, delta, elapsed, trig, m);
    WorldPositionOfChain(r, bodies[m].mesh, bodies[m].group, bodies[p].group);
  }

  /** Any sequence of frames keeps the scene and body invariants and the structure of the store. */
  lemma {:induction false} RunKeepsInvariant(nodes: seq<Node>, bodies: seq<CelestialBody>, frames: seq<Frame>, trig: Trig)
    requires SceneOk(nodes) && BodiesOk(nodes, bodies)
    ensures var r := Run(nodes, bodies, frames, trig);
      SceneOk(r) && BodiesOk(r, bodies) && SameStructure(nodes, r)
    decreases |frames|
  {
    if frames != [] {
      var front := frames[..|frames| - 1];
      var f := frames[|frames| - 1];
      RunKeepsInvariant(nodes, bodies, front, trig);
      UpdateKeepsInvariant(Run(nodes, bodies, front, trig), bodies, f.delta, f.elapsed, trig);
    }
  }

  /**
   * After any non-empty sequence of frames, a body whose group the scene holds
   * at height 0 is at its orbit point for the last frame's elapsed time when
   * its radius is positive, and where its group started otherwise.
   */
  lemma RootAfterRun(nodes: seq<Node>, bodies: seq<CelestialBody>, frames: seq<Frame>, trig: Trig, p: nat)
    requires SceneOk(nodes) && BodiesOk(nodes, bodies) && p < |bodies| && frames != []
    requires nodes[bodies[p].group].parent == Some(0) && nodes[bodies[p].group].position.y == 0.0
    ensures var r := Run(nodes, bodies, frames, trig);
      var d := bodies[p].data;
      && Tree(r)
      && WorldPosition(r, bodies[p].mesh)
         == (if d.orbitalRadius > 0.0 then OrbitPoint(d, frames[|frames| - 1].elapsed, trig)
             else nodes[bodies[p].group].position)
  {
    var front := frames[..|frames| - 1];
    var f := frames[|frames| - 1];
    var mid := Run(nodes, bodies, front, trig);
    var g := bodies[p].group;
    RunKeepsInvariant(nodes, bodies, front, trig);
    RunGroupsKeepOffAxis(nodes, bodies, front, trig);
    assert mid[g].parent == Some(0);
    RootAfterFrame(mid, bodies, f.delta, f.elapsed, trig, p);
  }

  /**
   * After any non-empty sequence of frames, a moon hung as `MoonAfterFrame`
   * describes is at its planet's point plus its own, for the last frame's
   * elapsed time.
   */
  lemma MoonAfterRun(nodes: seq<Node>, bodies: seq<CelestialBody>, frames: seq<Frame>, trig: Trig, p: nat, m: nat)
    requires SceneOk(nodes) && BodiesOk(nodes, bodies) && p < |bodies| && m < |bodies| && frames != []
    requires nodes[bodies[p].group].parent == Some(0) && nodes[bodies[p].group].position.y == 0.0
    requires nodes[bodies[m].group].parent == Some(bodies[p].group) && nodes[bodies[m].group].position.y == 0.0
    ensures var r := Run(nodes, bodies, frames, trig);
      var t := frames[|frames| - 1].elapsed;
      var dp := bodies[p].data;
      var dm := bodies[m].data;
      && Tree(r)
      && WorldPosition(r, bodies[m].mesh)
         == Add(if dp.orbitalRadius > 0.0 then OrbitPoint(dp, t, trig) else nodes[bodies[p].group].position,
                if dm.orbitalRadius > 0.0 then OrbitPoint(dm, t, trig) else nodes[bodies[m].group].position)
  {
    var front := frames[..|frames| - 1];
    var f := frames[|frames| - 1];
    var mid := Run(nodes, bodies, front, trig);
    RunKeepsInvariant(nodes, bodies, front, trig);
    RunGroupsKeepOffAxis(nodes, bodies, front, trig);
    assert mid[bodies[p].group].parent == Some(0);
    assert mid[bodies[m].group].parent == Some(bodies[p].group);
    MoonAfterFrame(mid, bodies, f.delta, f.elapsed, trig, p, m);
  }

  // ---------------------------------------------------------------------------
  // The imperative frame.

  /** The `forEach` callback for one entry: turn the mesh, then move the group along its orbit. */
  method UpdateBodyInPlace(graph: SceneGraph, cb: CelestialBody, delta: real, elapsed: real, trig: Trig)
    requires cb.mesh < |graph.nodes| && cb.group < |graph.nodes|
    modifies graph
    ensures graph.nodes == UpdateBody(old(graph.nodes), cb, delta, elapsed, trig)
  {
    var mesh := graph.nodes[cb.mesh];
    mesh := mesh.(rotation := mesh.rotation.(y := mesh.rotation.y + cb.data.rotationSpeed * delta * GlobalSpeedMultiplier));
    assert mesh == Spin(old(graph.nodes)[cb.mesh], cb.data, delta);
    graph.nodes := graph.nodes[cb.mesh := mesh];
    ghost var spun := graph.nodes;
    if cb.data.orbitalRadius > 0.0 {
      var angle := elapsed * cb.data.orbitalSpeed * GlobalSpeedMultiplier;
      assert angle == OrbitalAngle(cb.data, elapsed);
      var group := graph.nodes[cb.group];
      group := group.(position := group.position.(x := trig.cos(angle) * cb.data.orbitalRadius));
      group := group.(position := group.position.(z := trig.sin(angle) * cb.data.orbitalRadius));
      assert group == Orbit(spun[cb.group], cb.data, elapsed, trig);
      graph.nodes := graph.nodes[cb.group := group];
      assert graph.nodes == spun[cb.group := Orbit(spun[cb.group], cb.data, elapsed, trig)];
    } else {
      assert spun[cb.group := Orbit(spun[cb.group], cb.data, elapsed, trig)] == spun;
    }
  }

  /** One more entry of the loop is one more `UpdateBody`. */
  lemma UpdateAllSnoc(start: seq<Node>, bodies: seq<CelestialBody>, i: nat, delta: real, elapsed: real, trig: Trig)
    requires i < |bodies| && BodiesInRange(start, bodies)
    ensures BodiesInRange(start, bodies[..i]) && BodiesInRange(start, bodies[..i + 1])
    ensures UpdateAll(start, bodies[..i + 1], delta, elapsed, trig)
         == UpdateBody(UpdateAll(start, bodies[..i], delta, elapsed, trig), bodies[i], delta, elapsed, trig)
  {
    assert bodies[..i + 1][..i] == bodies[..i];
    assert forall j :: 0 <= j <= i ==> bodies[..i + 1][j] == bodies[j];
  }

  /** The body loop of `animate`: updates the meshes and groups in `celestialBodies` order. */
  method UpdateBodies(graph: SceneGraph, bodies: seq<CelestialBody>, delta: real, elapsed: real, trig: Trig)
    requires BodiesInRange(graph.nodes, bodies)
    modifies graph
    ensures graph.nodes == UpdateAll(old(graph.nodes), bodies, delta, elapsed, trig)
  {
    ghost var start := graph.nodes;
    var i := 0;
    assert bodies[..0] == [];
    while i < |bodies|
      invariant 0 <= i <= |bodies|
      invariant BodiesInRange(start, bodies[..i])
      invariant graph.nodes == UpdateAll(start, bodies[..i], delta, elapsed, trig)
    {
      UpdateAllSnoc(start, bodies, i, delta, elapsed, trig);
      UpdateBodyInPlace(graph, bodies[i], delta, elapsed, trig);
      i := i + 1;
    }
    assert bodies[..i] == bodies;
  }

  /**
   * `animate` for one frame: the body loop, then the camera follow step. The
   * controls' zoom bounds are not touched.
   */
  method Animate(graph: SceneGraph, controls: OrbitControls, ui: Interaction.InteractionState, bodies: seq<CelestialBody>,
                 delta: real, elapsed: real, trig: Trig)
    requires ui.bodies == bodies && ui.Valid() && BodiesOk(graph.nodes, bodies)
    modifies graph, controls
    ensures graph.nodes == UpdateAll(old(graph.nodes), bodies, delta, elapsed, trig)
    ensures BodiesOk(graph.nodes, bodies)
    ensures ui.selectedObject.Some? ==> ui.selectedObject.value < |graph.nodes|
    ensures controls.target == FollowTarget(graph.nodes, ui.selectedObject, old(controls.target))
    ensures controls.minDistance == old(controls.minDistance) && controls.maxDistance == old(controls.maxDistance)
  {
    UpdateKeepsInvariant(graph.nodes, bodies, delta, elapsed, trig);
    UpdateBodies(graph, bodies, delta, elapsed, trig);
    var current := ui.GetSelectedObject();
    if current.Some? {
      controls.target := WorldPosition(graph.nodes, current.value);
    }
  }
}
