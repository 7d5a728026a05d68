/**
 * What `createSolarSystem` guarantees about the scene it builds and the
 * `celestialBodies` list it returns, proved about the specification `Build`
 * that the method implements.
 */
module BuilderFacts {
  import opened Wrappers
  import opened Registry
  import opened Scene
  import opened Builder

  /** The `data` column of `celestialBodies`. */
  function Datas(bodies: seq<CelestialBody>): (ds: seq<BodySpec>)
    ensures |ds| == |bodies| && forall i :: 0 <= i < |bodies| ==> ds[i] == bodies[i].data
  {
    seq(|bodies|, i requires 0 <= i < |bodies| => bodies[i].data)
  }

  /** The moons of one parent as the builder stores them, each linked to the parent by name. */
  function LinkedMoonsOf(p: BodySpec): (ms: seq<BodySpec>)
    ensures |ms| == |p.moons| && forall k :: 0 <= k < |p.moons| ==> ms[k] == Linked(p.moons[k], p.name)
  {
    seq(|p.moons|, k requires 0 <= k < |p.moons| => Linked(p.moons[k], p.name))
  }

  /** The moons of all roots, parent by parent, each linked to its parent. */
  function LinkedMoons(roots: seq<BodySpec>): seq<BodySpec>
    decreases |roots|
  {
    if roots == [] then [] else LinkedMoons(roots[..|roots| - 1]) + LinkedMoonsOf(roots[|roots| - 1])
  }

  /** Where a root body's guide circle sits: after its mesh, and after its ring if it has one. */
  function RootOrbitSlot(b: CelestialBody): nat
  {
    b.mesh + 1 + (if b.data.addRings then 1 else 0)
  }

  /** The nodes the first pass created for root body `b`, as they stand after construction. */
  ghost predicate RootFacts(nodes: seq<Node>, b: CelestialBody, orbitGroup: nat, trig: Trig)
  {
    var d := b.data;
    && b.mesh == b.group + 1
    && b.mesh < |nodes|
    && nodes[b.group] == Child(Group, 0)
    && nodes[b.mesh] == Node(Sphere(d.radius, d.isLightSource), Some(b.group), d.name, Some(d), Origin,
                             Vec3(0.0, 0.0, TiltOf(d)))
    && (d.addRings ==>
          b.mesh + 1 < |nodes| && nodes[b.mesh + 1] == Child(Ring(d.radius * 1.2, d.radius * 2.2), b.group))
    && (d.orbitalRadius > 0.0 ==>
          RootOrbitSlot(b) < |nodes| &&
          nodes[RootOrbitSlot(b)] == Child(OrbitLine(OrbitPoints(d.orbitalRadius, RootOrbitSegments, trig)), orbitGroup))
  }

  /** The nodes the second pass created for moon `b`, as they stand after construction. */
  ghost predicate MoonFacts(nodes: seq<Node>, b: CelestialBody, bodyGroups: map<string, nat>, trig: Trig)
  {
    var d := b.data;
    && d.parent.Some? && d.parent.value in bodyGroups
    && b.mesh == b.group + 1
    && b.mesh < |nodes|
    && nodes[b.group] == Child(Group, bodyGroups[d.parent.value])
    && nodes[b.mesh] == Node(Sphere(d.radius, false), Some(b.group), d.name, Some(d), Origin, Origin)
    && (d.orbitalRadius > 0.0 ==>
          b.mesh + 1 < |nodes| &&
          nodes[b.mesh + 1] == Child(OrbitLine(OrbitPoints(d.orbitalRadius, MoonOrbitSegments, trig)), bodyGroups[d.parent.value]))
  }

  /** A node created by the builder hangs under an older, unrotated group or under the scene. */
  ghost predicate NewNodeOk(nodes: seq<Node>, k: nat)
    requires k < |nodes|
  {
    && nodes[k].parent.Some?
    && nodes[k].parent.value < k
    && (nodes[k].parent.value == 0 || nodes[nodes[k].parent.value].kind == Group)
    && nodes[nodes[k].parent.value].rotation == Origin
  }

  /**
   * The builder's invariant over a scene that held `init` before it started:
   * the old nodes are untouched, node `|init|` is the orbit group, the first
   * `roots` bodies are roots and the rest are moons, allocated in order.
   */
  ghost predicate Inv(st: BuildState, init: seq<Node>, roots: nat, trig: Trig)
  {
    var og := |init|;
    && og < |st.nodes|
    && st.nodes[..og] == init
    && st.nodes[og] == Child(Group, 0)
    && roots <= |st.bodies|
    && (forall k :: og <= k < |st.nodes| ==> NewNodeOk(st.nodes, k))
    && (forall i :: 0 <= i < |st.bodies| ==> og < st.bodies[i].group)
    && (forall i, j :: 0 <= i < j < |st.bodies| ==> st.bodies[i].mesh < st.bodies[j].group)
    && (forall i :: 0 <= i < roots ==> RootFacts(st.nodes, st.bodies[i], og, trig))
    && (forall i :: roots <= i < |st.bodies| ==> MoonFacts(st.nodes, st.bodies[i], st.bodyGroups, trig))
    && (forall name :: name in st.bodyGroups ==>
          og < st.bodyGroups[name] < |st.nodes| && st.nodes[st.bodyGroups[name]] == Child(Group, 0))
  }

  lemma RootStepInv(st: BuildState, init: seq<Node>, d: BodySpec, trig: Trig)
    requires SceneOk(init) && Inv(st, init, |st.bodies|, trig)
    ensures Inv(RootStep(st, d, |init|, trig), init, |st.bodies| + 1, trig)
  {
    var og := |init|;
    var st' := RootStep(st, d, og, trig);
    var g := |st.nodes|;
    var extra := RootNodes(d, g, og, trig);
    assert st'.nodes == st.nodes + extra;
    assert st'.nodes[..og] == st.nodes[..og];
    assert st'.nodes[0] == init[0] && st'.nodes[og] == Child(Group, 0) && st'.nodes[g] == Child(Group, 0);
    forall k | og <= k < |st'.nodes|
      ensures NewNodeOk(st'.nodes, k)
    {
      if k < g {
        assert NewNodeOk(st.nodes, k);
        assert st'.nodes[k] == st.nodes[k];
        assert st'.nodes[st.nodes[k].parent.value] == st.nodes[st.nodes[k].parent.value];
      } else {
        assert st'.nodes[k] == extra[k - g];
        if k == g {
          assert st'.nodes[k].parent == Some(0);
        } else if k == g + 1 || (k == g + 2 && d.addRings) {
          assert st'.nodes[k].parent == Some(g);
        } else {
          assert st'.nodes[k].parent == Some(og);
        }
      }
    }
    forall i | 0 <= i < |st.bodies|
      ensures RootFacts(st'.nodes, st'.bodies[i], og, trig)
    {
      assert RootFacts(st.nodes, st.bodies[i], og, trig);
    }
    assert RootFacts(st'.nodes, st'.bodies[|st.bodies|], og, trig);
  }

  lemma MoonStepInv(st: BuildState, init: seq<Node>, roots: nat, m: BodySpec, parentName: string, trig: Trig)
    requires SceneOk(init) && Inv(st, init, roots, trig)
    requires parentName in st.bodyGroups
    ensures Inv(MoonStep(st, m, parentName, st.bodyGroups[parentName], trig), init, roots, trig)
  {
    var og := |init|;
    var pg := st.bodyGroups[parentName];
    var st' := MoonStep(st, m, parentName, pg, trig);
    var g := |st.nodes|;
    var extra := MoonNodes(m, parentName, g, pg, trig);
    assert st'.nodes == st.nodes + extra;
    assert st'.nodes[..og] == st.nodes[..og];
    assert st'.nodes[0] == init[0] && st'.nodes[pg] == Child(Group, 0);
    forall k | og <= k < |st'.nodes|
      ensures NewNodeOk(st'.nodes, k)
    {
      if k < g {
        assert NewNodeOk(st.nodes, k);
        assert st'.nodes[k] == st.nodes[k];
        assert st'.nodes[st.nodes[k].parent.value] == st.nodes[st.nodes[k].parent.value];
      } else {
        assert st'.nodes[k] == extra[k - g];
        if k == g + 1 {
          assert st'.nodes[k].parent == Some(g);
        } else {
          assert st'.nodes[k].parent == Some(pg);
        }
      }
    }
    forall i | 0 <= i < roots
      ensures RootFacts(st'.nodes, st'.bodies[i], og, trig)
    {
      assert RootFacts(st.nodes, st.bodies[i], og, trig);
    }
    forall i | roots <= i < |st.bodies|
      ensures MoonFacts(st'.nodes, st'.bodies[i], st'.bodyGroups, trig)
    {
      assert MoonFacts(st.nodes, st.bodies[i], st.bodyGroups, trig);
    }
    assert MoonFacts(st'.nodes, st'.bodies[|st.bodies|], st'.bodyGroups, trig);
  }

  /** The first pass appends one body per root, in order, and registers every root's name. */
  lemma {:induction false} RootsPassShape(st: BuildState, roots: seq<BodySpec>, orbitGroup: nat, trig: Trig)
    ensures var st' := RootsPass(st, roots, orbitGroup, trig);
      && |st'.bodies| == |st.bodies| + |roots|
      && st'.bodies[..|st.bodies|] == st.bodies
      && Datas(st'.bodies) == Datas(st.bodies) + roots
      && (forall name :: name in st.bodyGroups ==> name in st'.bodyGroups)
      && (forall j :: 0 <= j < |roots| ==> roots[j].name in st'.bodyGroups)
    decreases |roots|
  {
    if roots != [] {
      var front := roots[..|roots| - 1];
      var last := roots[|roots| - 1];
      RootsPassShape(st, front, orbitGroup, trig);
      var mid := RootsPass(st, front, orbitGroup, trig);
      var st' := RootsPass(st, roots, orbitGroup, trig);
      assert st' == RootStep(mid, last, orbitGroup, trig);
      assert roots == front + [last];
      assert st'.bodies[..|st.bodies|] == mid.bodies[..|st.bodies|];
      assert Datas(st'.bodies) == Datas(mid.bodies) + [last];
    }
  }

  lemma {:induction false} RootsPassInv(st: BuildState, init: seq<Node>, roots: seq<BodySpec>, trig: Trig)
    requires SceneOk(init) && Inv(st, init, |st.bodies|, trig)
    ensures var st' := RootsPass(st, roots, |init|, trig); Inv(st', init, |st'.bodies|, trig)
    decreases |roots|
  {
    if roots != [] {
      var front := roots[..|roots| - 1];
      RootsPassInv(st, init, front, trig);
      var mid := RootsPass(st, front, |init|, trig);
      RootStepInv(mid, init, roots[|roots| - 1], trig);
    }
  }

  /** The inner loop appends one linked body per moon and leaves the registry alone. */
  lemma {:induction false} MoonsStepShape(st: BuildState, moons: seq<BodySpec>, parentName: string,
                                          parentGroup: nat, trig: Trig)
    ensures var st' := MoonsStep(st, moons, parentName, parentGroup, trig);
      && st'.bodyGroups == st.bodyGroups
      && |st'.bodies| == |st.bodies| + |moons|
      && st'.bodies[..|st.bodies|] == st.bodies
      && Datas(st'.bodies) == Datas(st.bodies) + seq(|moons|, k requires 0 <= k < |moons| => Linked(moons[k], parentName))
    decreases |moons|
  {
    if moons == [] {
      assert seq(|moons|, k requires 0 <= k < |moons| => Linked(moons[k], parentName)) == [];
    } else {
      var front := moons[..|moons| - 1];
      MoonsStepShape(st, front, parentName, parentGroup, trig);
      var mid := MoonsStep(st, front, parentName, parentGroup, trig);
      var st' := MoonsStep(st, moons, parentName, parentGroup, trig);
      var last := Linked(moons[|moons| - 1], parentName);
      assert st' == MoonStep(mid, moons[|moons| - 1], parentName, parentGroup, trig);
      assert st'.bodies[..|st.bodies|] == mid.bodies[..|st.bodies|];
      assert Datas(st'.bodies) == Datas(mid.bodies) + [last];
      assert seq(|moons|, k requires 0 <= k < |moons| => Linked(moons[k], parentName))
          == seq(|front|, k requires 0 <= k < |front| => Linked(front[k], parentName)) + [last];
    }
  }

  lemma {:induction false} MoonsStepInv(st: BuildState, init: seq<Node>, roots: nat,
                                        moons: seq<BodySpec>, parentName: string, trig: Trig)
    requires SceneOk(init) && Inv(st, init, roots, trig)
    requires parentName in st.bodyGroups
    ensures Inv(MoonsStep(st, moons, parentName, st.bodyGroups[parentName], trig), init, roots, trig)
    decreases |moons|
  {
    if moons != [] {
      var pg := st.bodyGroups[parentName];
      var front := moons[..|moons| - 1];
      MoonsStepInv(st, init, roots, front, parentName, trig);
      MoonsStepShape(st, front, parentName, pg, trig);
      var mid := MoonsStep(st, front, parentName, pg, trig);
      MoonStepInv(mid, init, roots, moons[|moons| - 1], parentName, trig);
    }
  }

  /** The second pass appends the linked moons of every root whose name is registered. */
  lemma {:induction false} MoonsPassShape(st: BuildState, parents: seq<BodySpec>, trig: Trig)
    requires forall j :: 0 <= j < |parents| ==> parents[j].name in st.bodyGroups
    ensures var st' := MoonsPass(st, parents, trig);
      && st'.bodyGroups == st.bodyGroups
      && |st'.bodies| >= |st.bodies|
      && st'.bodies[..|st.bodies|] == st.bodies
      && Datas(st'.bodies) == Datas(st.bodies) + LinkedMoons(parents)
    decreases |parents|
  {
    if parents != [] {
      var front := parents[..|parents| - 1];
      var p := parents[|parents| - 1];
      MoonsPassShape(st, front, trig);
      var mid := MoonsPass(st, front, trig);
      var st' := MoonsPass(st, parents, trig);
      assert st' == ParentStep(mid, p, trig);
      assert LinkedMoons(parents) == LinkedMoons(front) + LinkedMoonsOf(p);
      if |p.moons| > 0 {
        MoonsStepShape(mid, p.moons, p.name, mid.bodyGroups[p.name], trig);
        assert LinkedMoonsOf(p) == seq(|p.moons|, k requires 0 <= k < |p.moons| => Linked(p.moons[k], p.name));
        assert st'.bodies[..|st.bodies|] == mid.bodies[..|st.bodies|];
      } else {
        assert LinkedMoonsOf(p) == [];
      }
    }
  }

  lemma {:induction false} MoonsPassInv(st: BuildState, init: seq<Node>, roots: nat, parents: seq<BodySpec>, trig: Trig)
    requires SceneOk(init) && Inv(st, init, roots, trig)
    requires forall j :: 0 <= j < |parents| ==> parents[j].name in st.bodyGroups
    ensures Inv(MoonsPass(st, parents, trig), init, roots, trig)
    decreases |parents|
  {
    if parents != [] {
      var front := parents[..|parents| - 1];
      var p := parents[|parents| - 1];
      MoonsPassInv(st, init, roots, front, trig);
      MoonsPassShape(st, front, trig);
      var mid := MoonsPass(st, front, trig);
      if |p.moons| > 0 {
        MoonsStepInv(mid, init, roots, p.moons, p.name, trig);
      }
    }
  }

  lemma StartInv(init: seq<Node>, trig: Trig)
    requires SceneOk(init)
    ensures Inv(BuildState(init + [Child(Group, 0)], [], map[]), init, 0, trig)
  {
    var nodes := init + [Child(Group, 0)];
    assert nodes[..|init|] == init;
    assert nodes[0] == init[0];
    assert NewNodeOk(nodes, |init|);
  }

  /** `celestialBodies` holds the roots in catalogue order, then their moons linked to them. */
  lemma BuildBodies(init: seq<Node>, data: seq<BodySpec>, trig: Trig)
    ensures Datas(Build(init, data, trig).bodies) == data + LinkedMoons(data)
  {
    var start := BuildState(init + [Child(Group, 0)], [], map[]);
    RootsPassShape(start, data, |init|, trig);
    var afterRoots := RootsPass(start, data, |init|, trig);
    assert Datas(start.bodies) == [];
    assert Datas(afterRoots.bodies) == data;
    MoonsPassShape(afterRoots, data, trig);
  }

  /** Every root body's group is registered under its name. */
  lemma BuildRegistersRoots(init: seq<Node>, data: seq<BodySpec>, trig: Trig)
    ensures forall j :: 0 <= j < |data| ==> data[j].name in Build(init, data, trig).bodyGroups
  {
    var start := BuildState(init + [Child(Group, 0)], [], map[]);
    RootsPassShape(start, data, |init|, trig);
    var afterRoots := RootsPass(start, data, |init|, trig);
    MoonsPassShape(afterRoots, data, trig);
  }

  /** The builder's invariant holds of the whole construction. */
  lemma BuildInv(init: seq<Node>, data: seq<BodySpec>, trig: Trig)
    requires SceneOk(init)
    ensures Inv(Build(init, data, trig), init, |data|, trig)
  {
    var start := BuildState(init + [Child(Group, 0)], [], map[]);
    StartInv(init, trig);
    RootsPassShape(start, data, |init|, trig);
    RootsPassInv(start, init, data, trig);
    var afterRoots := RootsPass(start, data, |init|, trig);
    assert |afterRoots.bodies| == |data|;
    MoonsPassInv(afterRoots, init, |data|, data, trig);
  }

  /** Registering one more root, under a fresh name, keeps the earlier registrations. */
  lemma RegisterOneMore(groups: map<string, nat>, bodies: seq<CelestialBody>, base: nat,
                        front: seq<BodySpec>, last: BodySpec, g: nat)
    requires |bodies| == base + |front|
    requires forall j :: 0 <= j < |front| ==>
      front[j].name in groups && groups[front[j].name] == bodies[base + j].group
    requires forall j :: 0 <= j < |front| ==> front[j].name != last.name
    ensures var roots := front + [last];
      var groups' := groups[last.name := g];
      var bodies' := bodies + [CelestialBody(g + 1, g, last)];
      forall j :: 0 <= j < |roots| ==>
        roots[j].name in groups' && groups'[roots[j].name] == bodies'[base + j].group
  {
    var roots := front + [last];
    var bodies' := bodies + [CelestialBody(g + 1, g, last)];
    forall j | 0 <= j < |roots|
      ensures roots[j].name in groups[last.name := g]
      ensures groups[last.name := g][roots[j].name] == bodies'[base + j].group
    {
      if j < |front| {
        assert roots[j] == front[j];
        assert bodies'[base + j] == bodies[base + j];
      }
    }
  }

  /** A registered name maps to the group of the root that bears it, when names are unique. */
  lemma {:induction false} RootsPassRegisters(st: BuildState, roots: seq<BodySpec>, orbitGroup: nat, trig: Trig)
    requires UniqueNames(roots)
    ensures var st' := RootsPass(st, roots, orbitGroup, trig);
      |st'.bodies| == |st.bodies| + |roots| &&
      forall j :: 0 <= j < |roots| ==>
        roots[j].name in st'.bodyGroups && st'.bodyGroups[roots[j].name] == st'.bodies[|st.bodies| + j].group
    decreases |roots|
  {
    if roots != [] {
      var front := roots[..|roots| - 1];
      var last := roots[|roots| - 1];
      assert UniqueNames(front) by {
        forall i, j | 0 <= i < j < |front| ensures front[i].name != front[j].name {
          assert front[i] == roots[i] && front[j] == roots[j];
        }
      }
      assert forall j :: 0 <= j < |front| ==> front[j].name != last.name by {
        forall j | 0 <= j < |front| ensures front[j].name != last.name {
          assert front[j] == roots[j];
        }
      }
      RootsPassRegisters(st, front, orbitGroup, trig);
      var mid := RootsPass(st, front, orbitGroup, trig);
      var st' := RootsPass(st, roots, orbitGroup, trig);
      assert st'.bodyGroups == mid.bodyGroups[last.name := |mid.nodes|];
      assert st'.bodies == mid.bodies + [CelestialBody(|mid.nodes| + 1, |mid.nodes|, last)];
      RegisterOneMore(mid.bodyGroups, mid.bodies, |st.bodies|, front, last, |mid.nodes|);
      assert roots == front + [last];
    }
  }

  lemma {:induction false} LinkedMoonsAppend(a: seq<BodySpec>, b: seq<BodySpec>)
    ensures LinkedMoons(a + b) == LinkedMoons(a) + LinkedMoons(b)
    decreases |b|
  {
    if b == [] {
      assert a + b == a;
    } else {
      var b' := b[..|b| - 1];
      assert (a + b)[..|a + b| - 1] == a + b';
      assert (a + b)[|a + b| - 1] == b[|b| - 1];
      LinkedMoonsAppend(a, b');
      assert LinkedMoons(b) == LinkedMoons(b') + LinkedMoonsOf(b[|b| - 1]);
    }
  }

  /** Linking moons to their parents changes neither how many there are nor their order by parent. */
  lemma {:induction false} LinkedMoonsLength(roots: seq<BodySpec>)
    ensures |LinkedMoons(roots)| == |MoonsOf(roots)|
    decreases |roots|
  {
    if roots != [] {
      var front := roots[..|roots| - 1];
      var last := roots[|roots| - 1];
      LinkedMoonsLength(front);
      assert LinkedMoons(roots) == LinkedMoons(front) + LinkedMoonsOf(last);
      assert roots == front + [last];
      MoonsOfAppend(front, [last]);
      assert [last][1..] == [];
      assert MoonsOf([last]) == last.moons + MoonsOf([]);
    }
  }

  /** Moon `m` names as its parent one of `roots` that has moons. */
  ghost predicate NamesRootParent(m: BodySpec, roots: seq<BodySpec>)
  {
    exists j :: 0 <= j < |roots| && |roots[j].moons| > 0 && m.parent == Some(roots[j].name)
  }

  /** Every linked moon names as its parent a root that has moons. */
  lemma {:induction false} LinkedMoonsParents(roots: seq<BodySpec>)
    ensures forall k :: 0 <= k < |LinkedMoons(roots)| ==> NamesRootParent(LinkedMoons(roots)[k], roots)
    decreases |roots|
  {
    if roots != [] {
      var front := roots[..|roots| - 1];
      var last := roots[|roots| - 1];
      LinkedMoonsParents(front);
      var ms := LinkedMoons(roots);
      assert ms == LinkedMoons(front) + LinkedMoonsOf(last);
      forall k | 0 <= k < |ms|
        ensures NamesRootParent(ms[k], roots)
      {
        if k < |LinkedMoons(front)| {
          assert NamesRootParent(LinkedMoons(front)[k], front);
          var j :| 0 <= j < |front| && |front[j].moons| > 0 && LinkedMoons(front)[k].parent == Some(front[j].name);
          assert roots[j] == front[j];
          assert ms[k] == LinkedMoons(front)[k];
        } else {
          var k' := k - |LinkedMoons(front)|;
          assert ms[k] == LinkedMoonsOf(last)[k'] == Linked(last.moons[k'], last.name);
          var j := |roots| - 1;
          assert roots[j] == last;
          assert 0 <= j < |roots| && |roots[j].moons| > 0 && ms[k].parent == Some(roots[j].name);
        }
      }
    }
  }

  /** `celestialBodies` has one entry per root and one per moon. */
  lemma BuildBodyCount(init: seq<Node>, data: seq<BodySpec>, trig: Trig)
    ensures |Build(init, data, trig).bodies| == |data| + |MoonsOf(data)|
  {
    BuildBodies(init, data, trig);
    LinkedMoonsLength(data);
  }

  /** The built scene is again a rigid scene tree that keeps what the scene held before. */
  lemma BuildSceneOk(init: seq<Node>, data: seq<BodySpec>, trig: Trig)
    requires SceneOk(init)
    ensures var b := Build(init, data, trig); SceneOk(b.nodes) && |init| < |b.nodes| && b.nodes[..|init|] == init
  {
    BuildInv(init, data, trig);
    var b := Build(init, data, trig);
    var og := |init|;
    assert b.nodes[0] == init[0];
    forall i | 0 < i < |b.nodes|
      ensures b.nodes[i].parent.Some? && b.nodes[i].parent.value < i
    {
      if i < og {
        assert b.nodes[i] == init[i];
      } else {
        assert NewNodeOk(b.nodes, i);
      }
    }
    forall i | 0 <= i < |b.nodes| && b.nodes[i].parent.Some? && b.nodes[i].parent.value < |b.nodes|
      ensures b.nodes[b.nodes[i].parent.value].rotation == Origin
    {
      if i < og {
        assert b.nodes[i] == init[i];
        assert b.nodes[init[i].parent.value] == init[init[i].parent.value];
      } else {
        assert NewNodeOk(b.nodes, i);
      }
    }
  }

  /** The built scene and `celestialBodies` satisfy the body invariant the animation relies on. */
  lemma BuildBodiesOk(init: seq<Node>, data: seq<BodySpec>, trig: Trig)
    requires SceneOk(init)
    ensures var b := Build(init, data, trig); BodiesOk(b.nodes, b.bodies)
  {
    BuildInv(init, data, trig);
    BuildSceneOk(init, data, trig);
    var b := Build(init, data, trig);
    var og := |init|;
    forall i | 0 <= i < |b.bodies|
      ensures && b.bodies[i].mesh == b.bodies[i].group + 1 < |b.nodes|
              && b.nodes[b.bodies[i].mesh].kind.Sphere?
              && b.nodes[b.bodies[i].mesh].name == b.bodies[i].data.name
              && b.nodes[b.bodies[i].mesh].userData == Some(b.bodies[i].data)
              && b.nodes[b.bodies[i].mesh].parent == Some(b.bodies[i].group)
              && b.nodes[b.bodies[i].mesh].position == Origin
              && b.nodes[b.bodies[i].group].kind == Group
    {
      if i < |data| {
        assert RootFacts(b.nodes, b.bodies[i], og, trig);
      } else {
        assert MoonFacts(b.nodes, b.bodies[i], b.bodyGroups, trig);
      }
    }
    forall i, j | 0 <= i < |b.bodies| && 0 <= j < |b.bodies|
      ensures b.bodies[i].mesh != b.bodies[j].group
    {
      if i < j {
        assert b.bodies[i].mesh < b.bodies[j].group;
      } else if j < i {
        assert b.bodies[j].mesh < b.bodies[i].group;
      }
    }
    forall i | 0 <= i < |b.bodies|
      ensures Leaf(b.nodes, b.bodies[i].mesh)
    {
      var mesh := b.bodies[i].mesh;
      forall k | 0 <= k < |b.nodes|
        ensures b.nodes[k].parent != Some(mesh)
      {
        if k < og {
          assert b.nodes[k] == init[k];
        } else {
          assert NewNodeOk(b.nodes, k);
        }
      }
    }
  }

  /**
   * Each root body gets, in catalogue order, a group attached to the scene, a
   * sphere mesh inside it tilted by its axial tilt, a ring inside the group
   * when `addRings`, and a guide circle of 128 segments in the orbit group
   * (node `|init|`) when its orbital radius is positive.
   */
  lemma BuildRootPlacement(init: seq<Node>, data: seq<BodySpec>, trig: Trig)
    requires SceneOk(init)
    ensures var b := Build(init, data, trig);
      && |init| < |b.nodes| && |data| <= |b.bodies|
      && b.nodes[|init|] == Child(Group, 0)
      && forall i :: 0 <= i < |data| ==>
           b.bodies[i].data == data[i] && RootFacts(b.nodes, b.bodies[i], |init|, trig)
  {
    BuildInv(init, data, trig);
    BuildBodies(init, data, trig);
    var b := Build(init, data, trig);
    forall i | 0 <= i < |data|
      ensures b.bodies[i].data == data[i]
    {
      assert Datas(b.bodies)[i] == data[i];
    }
  }

  /** Moon `moon` placed under `parent`, whose group is `parentGroup`. */
  ghost predicate MoonUnder(nodes: seq<Node>, moon: CelestialBody, parent: BodySpec, parentGroup: nat, trig: Trig)
  {
    && moon.group < moon.mesh < |nodes|
    && moon.data.parent == Some(parent.name)
    && nodes[moon.group] == Child(Group, parentGroup)
    && nodes[moon.mesh].rotation == Origin
    && (moon.data.orbitalRadius > 0.0 ==>
          moon.mesh + 1 < |nodes| &&
          nodes[moon.mesh + 1] == Child(OrbitLine(OrbitPoints(moon.data.orbitalRadius, MoonOrbitSegments, trig)), parentGroup))
  }

  /** Body `i` is a moon placed under the group of a root with moons that it names as parent. */
  ghost predicate PlacedUnderRoot(nodes: seq<Node>, bodies: seq<CelestialBody>, data: seq<BodySpec>, i: nat, trig: Trig)
    requires i < |bodies| && |data| <= |bodies|
  {
    exists j :: 0 <= j < |data| && |data[j].moons| > 0 && MoonUnder(nodes, bodies[i], data[j], bodies[j].group, trig)
  }

  /**
   * With unique root names, each moon's group is attached to the group of the
   * root it names as parent (a root with moons), its mesh is never tilted, and
   * its guide circle of 64 segments sits in the parent's group beside it.
   */
  lemma BuildMoonPlacement(init: seq<Node>, data: seq<BodySpec>, trig: Trig)
    requires SceneOk(init) && UniqueNames(data)
    ensures var b := Build(init, data, trig);
      && |data| <= |b.bodies|
      && forall i :: |data| <= i < |b.bodies| ==> PlacedUnderRoot(b.nodes, b.bodies, data, i, trig)
  {
    BuildInv(init, data, trig);
    BuildBodies(init, data, trig);
    LinkedMoonsParents(data);
    var b := Build(init, data, trig);
    var start := BuildState(init + [Child(Group, 0)], [], map[]);
    RootsPassRegisters(start, data, |init|, trig);
    var afterRoots := RootsPass(start, data, |init|, trig);
    MoonsPassShape(afterRoots, data, trig);
    assert b == MoonsPass(afterRoots, data, trig);
    forall i | |data| <= i < |b.bodies|
      ensures PlacedUnderRoot(b.nodes, b.bodies, data, i, trig)
    {
      assert MoonFacts(b.nodes, b.bodies[i], b.bodyGroups, trig);
      assert b.bodies[i].data == Datas(b.bodies)[i] == LinkedMoons(data)[i - |data|];
      assert NamesRootParent(LinkedMoons(data)[i - |data|], data);
      var j :| 0 <= j < |data| && |data[j].moons| > 0 && LinkedMoons(data)[i - |data|].parent == Some(data[j].name);
      assert b.bodyGroups[data[j].name] == afterRoots.bodies[j].group;
      assert b.bodies[j] == afterRoots.bodies[j];
      assert MoonUnder(b.nodes, b.bodies[i], data[j], b.bodies[j].group, trig);
    }
  }

  /** Roots without moons contribute no linked moons. */
  lemma {:induction false} LinkedMoonsMoonless(roots: seq<BodySpec>)
    requires forall i :: 0 <= i < |roots| ==> roots[i].moons == []
    ensures LinkedMoons(roots) == []
    decreases |roots|
  {
    if roots != [] {
      LinkedMoonsMoonless(roots[..|roots| - 1]);
      assert LinkedMoonsOf(roots[|roots| - 1]) == [];
    }
  }

  /** Every sample of a guide circle lies in the plane y = 0 at distance `radius` from its centre. */
  lemma OrbitPointsOnCircle(radius: real, segments: nat, trig: Trig)
    requires segments > 0 && Pythagorean(trig)
    ensures var pts := OrbitPoints(radius, segments, trig);
      && |pts| == segments + 1
      && forall i :: 0 <= i < |pts| ==>
           pts[i].y == 0.0 && pts[i].x * pts[i].x + pts[i].z * pts[i].z == radius * radius
  {
    var pts := OrbitPoints(radius, segments, trig);
    forall i | 0 <= i < |pts|
      ensures pts[i].x * pts[i].x + pts[i].z * pts[i].z == radius * radius
    {
      var c := trig.cos(OrbitAngle(i, segments));
      var s := trig.sin(OrbitAngle(i, segments));
      assert c * c + s * s == 1.0;
      calc {
        pts[i].x * pts[i].x + pts[i].z * pts[i].z;
        (c * radius) * (c * radius) + (s * radius) * (s * radius);
        (c * c + s * s) * (radius * radius);
        radius * radius;
      }
    }
  }

  /**
   * The sample angles increase strictly from 0 to a full turn, so the guide
   * circle is traced once, without going back on itself.
   */
  lemma OrbitPointsSweep(segments: nat)
    requires segments > 0
    ensures OrbitAngle(0, segments) == 0.0 && OrbitAngle(segments, segments) == Pi * 2.0
    ensures forall i, j :: 0 <= i < j <= segments ==> OrbitAngle(i, segments) < OrbitAngle(j, segments)
  {
    var n := segments as real;
    assert n / n == 1.0;
    forall i: nat, j: nat | i < j <= segments
      ensures OrbitAngle(i, segments) < OrbitAngle(j, segments)
    {
      assert i as real / n < j as real / n;
    }
  }
}

