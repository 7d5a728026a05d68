/**
 * How many guide circles and rings `createSolarSystem` adds: one guide circle
 * per body (root or moon) with a positive orbital radius, and one ring per root
 * flagged `addRings`; moons never get a ring.
 */
module BuilderCounts {
  import opened Wrappers
  import opened Registry
  import opened Scene
  import opened Builder
  import opened BuilderFacts

  /** The number of guide-circle lines among `nodes`. */
  function CountOrbitLines(nodes: seq<Node>): nat
    decreases |nodes|
  {
    if nodes == [] then 0
    else CountOrbitLines(nodes[..|nodes| - 1]) + (if nodes[|nodes| - 1].kind.OrbitLine? then 1 else 0)
  }

  /** The number of ring meshes among `nodes`. */
  function CountRings(nodes: seq<Node>): nat
    decreases |nodes|
  {
    if nodes == [] then 0
    else CountRings(nodes[..|nodes| - 1]) + (if nodes[|nodes| - 1].kind.Ring? then 1 else 0)
  }

  /** The number of bodies with a positive orbital radius. */
  function CountOrbiting(bodies: seq<BodySpec>): nat
    decreases |bodies|
  {
    if bodies == [] then 0
    else CountOrbiting(bodies[..|bodies| - 1]) + (if bodies[|bodies| - 1].orbitalRadius > 0.0 then 1 else 0)
  }

  /** The number of bodies flagged `addRings`. */
  function CountRinged(bodies: seq<BodySpec>): nat
    decreases |bodies|
  {
    if bodies == [] then 0
    else CountRinged(bodies[..|bodies| - 1]) + (if bodies[|bodies| - 1].addRings then 1 else 0)
  }

  lemma {:induction false} CountNodesAppend(a: seq<Node>, b: seq<Node>)
    ensures CountOrbitLines(a + b) == CountOrbitLines(a) + CountOrbitLines(b)
    ensures CountRings(a + b) == CountRings(a) + CountRings(b)
    decreases |b|
  {
    if b != [] {
      var b' := b[..|b| - 1];
      assert (a + b)[..|a + b| - 1] == a + b';
      CountNodesAppend(a, b');
    } else {
      assert a + b == a;
    }
  }

  lemma CountBodiesSnoc(a: seq<BodySpec>, x: BodySpec)
    ensures CountOrbiting(a + [x]) == CountOrbiting(a) + (if x.orbitalRadius > 0.0 then 1 else 0)
    ensures CountRinged(a + [x]) == CountRinged(a) + (if x.addRings then 1 else 0)
  {
    assert (a + [x])[..|a|] == a;
  }

  lemma CountSingle(n: Node)
    ensures CountOrbitLines([n]) == (if n.kind.OrbitLine? then 1 else 0)
    ensures CountRings([n]) == (if n.kind.Ring? then 1 else 0)
  {
    assert [n][..0] == [];
  }

  /**
   * The counting invariant of the builder over a scene that held `init`: the
   * guide circles added so far match the orbiting bodies, the rings the ringed
   * roots among the first `roots` bodies.
   */
  ghost predicate CountsOk(st: BuildState, init: seq<Node>, roots: nat)
  {
    && roots <= |st.bodies|
    && CountOrbitLines(st.nodes) == CountOrbitLines(init) + CountOrbiting(Datas(st.bodies))
    && CountRings(st.nodes) == CountRings(init) + CountRinged(Datas(st.bodies)[..roots])
  }

  lemma RootNodesCounts(d: BodySpec, g: nat, orbitGroup: nat, trig: Trig)
    ensures CountOrbitLines(RootNodes(d, g, orbitGroup, trig)) == (if d.orbitalRadius > 0.0 then 1 else 0)
    ensures CountRings(RootNodes(d, g, orbitGroup, trig)) == (if d.addRings then 1 else 0)
  {
    var head := [Child(Group, 0),
                 Node(Sphere(d.radius, d.isLightSource), Some(g), d.name, Some(d), Origin, Vec3(0.0, 0.0, TiltOf(d)))];
    var ring := if d.addRings then [Child(Ring(d.radius * 1.2, d.radius * 2.2), g)] else [];
    var orbit := if d.orbitalRadius > 0.0
      then [Child(OrbitLine(OrbitPoints(d.orbitalRadius, RootOrbitSegments, trig)), orbitGroup)] else [];
    assert RootNodes(d, g, orbitGroup, trig) == head + ring + orbit;
    CountNodesAppend(head + ring, orbit);
    CountNodesAppend(head, ring);
    CountNodesAppend([head[0]], [head[1]]);
    assert head == [head[0]] + [head[1]];
    CountSingle(head[0]);
    CountSingle(head[1]);
    if d.addRings { CountSingle(ring[0]); }
    if d.orbitalRadius > 0.0 { CountSingle(orbit[0]); }
  }

  lemma MoonNodesCounts(m: BodySpec, parentName: string, g: nat, parentGroup: nat, trig: Trig)
    ensures CountOrbitLines(MoonNodes(m, parentName, g, parentGroup, trig)) == (if m.orbitalRadius > 0.0 then 1 else 0)
    ensures CountRings(MoonNodes(m, parentName, g, parentGroup, trig)) == 0
  {
    var head := [Child(Group, parentGroup),
                 Node(Sphere(m.radius, false), Some(g), m.name, Some(Linked(m, parentName)), Origin, Origin)];
    var orbit := if m.orbitalRadius > 0.0
      then [Child(OrbitLine(OrbitPoints(m.orbitalRadius, MoonOrbitSegments, trig)), parentGroup)] else [];
    assert MoonNodes(m, parentName, g, parentGroup, trig) == head + orbit;
    CountNodesAppend(head, orbit);
    CountNodesAppend([head[0]], [head[1]]);
    assert head == [head[0]] + [head[1]];
    CountSingle(head[0]);
    CountSingle(head[1]);
    if m.orbitalRadius > 0.0 { CountSingle(orbit[0]); }
  }

  lemma RootStepCounts(st: BuildState, init: seq<Node>, d: BodySpec, orbitGroup: nat, trig: Trig)
    requires CountsOk(st, init, |st.bodies|)
    ensures CountsOk(RootStep(st, d, orbitGroup, trig), init, |st.bodies| + 1)
  {
    var st' := RootStep(st, d, orbitGroup, trig);
    RootNodesCounts(d, |st.nodes|, orbitGroup, trig);
    CountNodesAppend(st.nodes, RootNodes(d, |st.nodes|, orbitGroup, trig));
    assert Datas(st'.bodies) == Datas(st.bodies) + [d];
    assert Datas(st'.bodies)[..|st.bodies| + 1] == Datas(st.bodies) + [d];
    assert Datas(st.bodies)[..|st.bodies|] == Datas(st.bodies);
    CountBodiesSnoc(Datas(st.bodies), d);
  }

  lemma MoonStepCounts(st: BuildState, init: seq<Node>, roots: nat, m: BodySpec, parentName: string,
                       parentGroup: nat, trig: Trig)
    requires CountsOk(st, init, roots)
    ensures CountsOk(MoonStep(st, m, parentName, parentGroup, trig), init, roots)
  {
    var st' := MoonStep(st, m, parentName, parentGroup, trig);
    MoonNodesCounts(m, parentName, |st.nodes|, parentGroup, trig);
    CountNodesAppend(st.nodes, MoonNodes(m, parentName, |st.nodes|, parentGroup, trig));
    assert Datas(st'.bodies) == Datas(st.bodies) + [Linked(m, parentName)];
    assert Datas(st'.bodies)[..roots] == Datas(st.bodies)[..roots];
    CountBodiesSnoc(Datas(st.bodies), Linked(m, parentName));
  }

  lemma {:induction false} RootsPassCounts(st: BuildState, init: seq<Node>, roots: seq<BodySpec>,
                                           orbitGroup: nat, trig: Trig)
    requires CountsOk(st, init, |st.bodies|)
    ensures var st' := RootsPass(st, roots, orbitGroup, trig); CountsOk(st', init, |st'.bodies|)
    decreases |roots|
  {
    if roots != [] {
      var front := roots[..|roots| - 1];
      RootsPassCounts(st, init, front, orbitGroup, trig);
      var mid := RootsPass(st, front, orbitGroup, trig);
      RootStepCounts(mid, init, roots[|roots| - 1], orbitGroup, trig);
    }
  }

  lemma {:induction false} MoonsStepCounts(st: BuildState, init: seq<Node>, roots: nat, moons: seq<BodySpec>,
                                           parentName: string, parentGroup: nat, trig: Trig)
    requires CountsOk(st, init, roots)
    ensures CountsOk(MoonsStep(st, moons, parentName, parentGroup, trig), init, roots)
    decreases |moons|
  {
    if moons != [] {
      var front := moons[..|moons| - 1];
      MoonsStepCounts(st, init, roots, front, parentName, parentGroup, trig);
      var mid := MoonsStep(st, front, parentName, parentGroup, trig);
      MoonStepCounts(mid, init, roots, moons[|moons| - 1], parentName, parentGroup, trig);
    }
  }

  lemma {:induction false} MoonsPassCounts(st: BuildState, init: seq<Node>, roots: nat, parents: seq<BodySpec>,
                                           trig: Trig)
    requires CountsOk(st, init, roots)
    ensures CountsOk(MoonsPass(st, parents, trig), init, roots)
    decreases |parents|
  {
    if parents != [] {
      var front := parents[..|parents| - 1];
      var p := parents[|parents| - 1];
      MoonsPassCounts(st, init, roots, front, trig);
      var mid := MoonsPass(st, front, trig);
      if |p.moons| > 0 && p.name in mid.bodyGroups {
        MoonsStepCounts(mid, init, roots, p.moons, p.name, mid.bodyGroups[p.name], trig);
      }
    }
  }

  /**
   * The builder adds exactly one guide circle per body with a positive orbital
   * radius and exactly one ring per root flagged `addRings`.
   */
  lemma BuildCounts(init: seq<Node>, data: seq<BodySpec>, trig: Trig)
    ensures var b := Build(init, data, trig);
      && CountOrbitLines(b.nodes) == CountOrbitLines(init) + CountOrbiting(data + LinkedMoons(data))
      && CountRings(b.nodes) == CountRings(init) + CountRinged(data)
  {
    var start := BuildState(init + [Child(Group, 0)], [], map[]);
    CountNodesAppend(init, [Child(Group, 0)]);
    CountSingle(Child(Group, 0));
    assert Datas(start.bodies) == [];
    assert CountsOk(start, init, 0);
    RootsPassCounts(start, init, data, |init|, trig);
    RootsPassShape(start, data, |init|, trig);
    var afterRoots := RootsPass(start, data, |init|, trig);
    assert Datas(afterRoots.bodies) == data;
    MoonsPassCounts(afterRoots, init, |data|, data, trig);
    BuildBodies(init, data, trig);
    var b := Build(init, data, trig);
    assert b == MoonsPass(afterRoots, data, trig);
    assert Datas(b.bodies)[..|data|] == data;
  }

  lemma {:induction false} CountBodiesAppend(a: seq<BodySpec>, b: seq<BodySpec>)
    ensures CountOrbiting(a + b) == CountOrbiting(a) + CountOrbiting(b)
    ensures CountRinged(a + b) == CountRinged(a) + CountRinged(b)
    decreases |b|
  {
    if b == [] {
      assert a + b == a;
    } else {
      var b' := b[..|b| - 1];
      assert (a + b)[..|a + b| - 1] == a + b';
      assert (a + b)[|a + b| - 1] == b[|b| - 1];
      CountBodiesAppend(a, b');
    }
  }

  lemma {:induction false} CountAllOrbiting(bodies: seq<BodySpec>)
    requires forall i :: 0 <= i < |bodies| ==> bodies[i].orbitalRadius > 0.0
    ensures CountOrbiting(bodies) == |bodies|
    decreases |bodies|
  {
    if bodies != [] {
      CountAllOrbiting(bodies[..|bodies| - 1]);
    }
  }

  lemma {:induction false} CountNoneRinged(bodies: seq<BodySpec>)
    requires forall i :: 0 <= i < |bodies| ==> !bodies[i].addRings
    ensures CountRinged(bodies) == 0
    decreases |bodies|
  {
    if bodies != [] {
      CountNoneRinged(bodies[..|bodies| - 1]);
    }
  }
}

