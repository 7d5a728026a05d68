/**
 * The scene-graph builder of celestialBodyUtils.js (`createSolarSystem`).
 *
 * A first pass over the root bodies creates, for each, a group attached to the
 * scene, a sphere mesh inside the group (tilted about z when the body has an
 * axial tilt), an optional ring inside the group, and an optional guide circle
 * inside the Sun-centred orbit group; it registers the group under the body's
 * name. A second pass attaches each moon's group to its parent's registered
 * group, with the moon's guide circle beside it. `celestialBodies` lists the
 * roots in catalogue order and then the moons, parent by parent.
 *
 * The model allocates each body's group just before its mesh (the source creates
 * the mesh first and then the group that adopts it), so that every node hangs
 * under an older one; the resulting tree and child order are the same.
 */
module Builder {
  import opened Wrappers
  import opened Registry
  import opened Scene

  /** Samples of a root body's guide circle, and of a moon's. */
  const RootOrbitSegments: nat := 128
  const MoonOrbitSegments: nat := 64

  /** The angle of sample `i` of `segments`: `i / segments * 2π`. */
  function OrbitAngle(i: nat, segments: nat): real
    requires segments > 0
  {
    (i as real / segments as real) * Pi * 2.0
  }

  /** The guide circle: `segments + 1` points of radius `radius` in the plane y = 0. */
  function OrbitPoints(radius: real, segments: nat, trig: Trig): seq<Vec3>
    requires segments > 0
  {
    seq(segments + 1, i requires 0 <= i <= segments =>
      Vec3(trig.cos(OrbitAngle(i, segments)) * radius, 0.0, trig.sin(OrbitAngle(i, segments)) * radius))
  }

  /** `if (data.axialTilt) mesh.rotation.z = data.axialTilt`: a missing or zero tilt leaves z at 0. */
  function TiltOf(d: BodySpec): real
  {
    if d.axialTilt.Some? && d.axialTilt.value != 0.0 then d.axialTilt.value else 0.0
  }

  /** The builder's working state: the scene's nodes, `celestialBodies` and `bodyGroups`. */
  datatype BuildState = BuildState(nodes: seq<Node>, bodies: seq<CelestialBody>, bodyGroups: map<string, nat>)

  /** The nodes the first pass creates for root body `d`, its group being node `g`. */
  function RootNodes(d: BodySpec, g: nat, orbitGroup: nat, trig: Trig): seq<Node>
  {
    [Child(Group, 0),
     Node(Sphere(d.radius, d.isLightSource), Some(g), d.name, Some(d), Origin, Vec3(0.0, 0.0, TiltOf(d)))]
    + (if d.addRings then [Child(Ring(d.radius * 1.2, d.radius * 2.2), g)] else [])
    + (if d.orbitalRadius > 0.0
       then [Child(OrbitLine(OrbitPoints(d.orbitalRadius, RootOrbitSegments, trig)), orbitGroup)]
       else [])
  }

  /** One iteration of the first pass. */
  function RootStep(st: BuildState, d: BodySpec, orbitGroup: nat, trig: Trig): BuildState
  {
    var g := |st.nodes|;
    BuildState(st.nodes + RootNodes(d, g, orbitGroup, trig),
               st.bodies + [CelestialBody(g + 1, g, d)],
               st.bodyGroups[d.name := g])
  }

  /** The first pass over `roots`, in order. */
  function RootsPass(st: BuildState, roots: seq<BodySpec>, orbitGroup: nat, trig: Trig): BuildState
    decreases |roots|
  {
    if roots == [] then st
    else RootStep(RootsPass(st, roots[..|roots| - 1], orbitGroup, trig), roots[|roots| - 1], orbitGroup, trig)
  }

  /** A moon's data as the builder stores it: `moonData.parent = parentData.name`. */
  function Linked(m: BodySpec, parentName: string): BodySpec
  {
    m.(parent := Some(parentName))
  }

  /** The nodes the second pass creates for moon `m` under group `parentGroup`, its group being `g`. */
  function MoonNodes(m: BodySpec, parentName: string, g: nat, parentGroup: nat, trig: Trig): seq<Node>
  {
    [Child(Group, parentGroup),
     Node(Sphere(m.radius, false), Some(g), m.name, Some(Linked(m, parentName)), Origin, Origin)]
    + (if m.orbitalRadius > 0.0
       then [Child(OrbitLine(OrbitPoints(m.orbitalRadius, MoonOrbitSegments, trig)), parentGroup)]
       else [])
  }

  /** One iteration of the inner loop of the second pass. */
  function MoonStep(st: BuildState, m: BodySpec, parentName: string, parentGroup: nat, trig: Trig): BuildState
  {
    var g := |st.nodes|;
    BuildState(st.nodes + MoonNodes(m, parentName, g, parentGroup, trig),
               st.bodies + [CelestialBody(g + 1, g, Linked(m, parentName))],
               st.bodyGroups)
  }

  /** The inner loop of the second pass over the moons of one parent. */
  function MoonsStep(st: BuildState, moons: seq<BodySpec>, parentName: string, parentGroup: nat, trig: Trig): BuildState
    decreases |moons|
  {
    if moons == [] then st
    else MoonStep(MoonsStep(st, moons[..|moons| - 1], parentName, parentGroup, trig),
                  moons[|moons| - 1], parentName, parentGroup, trig)
  }

  /** One iteration of the second pass; a parent whose group is not registered is skipped. */
  function ParentStep(st: BuildState, p: BodySpec, trig: Trig): BuildState
  {
    if |p.moons| > 0 && p.name in st.bodyGroups
    then MoonsStep(st, p.moons, p.name, st.bodyGroups[p.name], trig)
    else st
  }

  /** The second pass over `roots`, in order. */
  function MoonsPass(st: BuildState, roots: seq<BodySpec>, trig: Trig): BuildState
    decreases |roots|
  {
    if roots == [] then st
    else ParentStep(MoonsPass(st, roots[..|roots| - 1], trig), roots[|roots| - 1], trig)
  }

  /** Everything `createSolarSystem` does to a scene holding `nodes`, the orbit group first. */
  function Build(nodes: seq<Node>, roots: seq<BodySpec>, trig: Trig): BuildState
  {
    var start := BuildState(nodes + [Child(Group, 0)], [], map[]);
    MoonsPass(RootsPass(start, roots, |nodes|, trig), roots, trig)
  }

  /** The body of the first pass's loop: creates and attaches one root body. */
  method AddRootBody(scene: SceneGraph, d: BodySpec, orbitGroup: nat, trig: Trig)
    returns (mesh: nat, objectGroup: nat)
    modifies scene
    ensures scene.nodes == old(scene.nodes) + RootNodes(d, |old(scene.nodes)|, orbitGroup, trig)
    ensures objectGroup == |old(scene.nodes)| && mesh == objectGroup + 1
  {
    objectGroup := scene.Attach(Child(Group, 0));
    var rotation := Origin;
    if d.axialTilt.Some? && d.axialTilt.value != 0.0 {
      rotation := rotation.(z := d.axialTilt.value);
    }
    mesh := scene.Attach(Node(Sphere(d.radius, d.isLightSource), Some(objectGroup), d.name, Some(d), Origin, rotation));
    ghost var withMesh := scene.nodes;
    if d.addRings {
      var ringMesh := scene.Attach(Child(Ring(d.radius * 1.2, d.radius * 2.2), objectGroup));
    }
    ghost var withRing := scene.nodes;
    if d.orbitalRadius > 0.0 {
      var orbitLine := scene.Attach(Child(OrbitLine(OrbitPoints(d.orbitalRadius, RootOrbitSegments, trig)), orbitGroup));
    }
    assert withMesh == old(scene.nodes) + RootNodes(d, objectGroup, orbitGroup, trig)[..2];
  }

  /** The body of the second pass's inner loop: creates one moon and attaches it to its parent's group. */
  method AddMoonBody(scene: SceneGraph, m: BodySpec, parentName: string, parentGroup: nat, trig: Trig)
    returns (body: CelestialBody)
    modifies scene
    ensures scene.nodes == old(scene.nodes) + MoonNodes(m, parentName, |old(scene.nodes)|, parentGroup, trig)
    ensures body == CelestialBody(|old(scene.nodes)| + 1, |old(scene.nodes)|, Linked(m, parentName))
  {
    var moonData := m.(parent := Some(parentName));
    var moonGroup := scene.Attach(Child(Group, parentGroup));
    var moonMesh := scene.Attach(Node(Sphere(moonData.radius, false), Some(moonGroup), moonData.name, Some(moonData), Origin, Origin));
    body := CelestialBody(moonMesh, moonGroup, moonData);
    if moonData.orbitalRadius > 0.0 {
      var orbitLine := scene.Attach(Child(OrbitLine(OrbitPoints(moonData.orbitalRadius, MoonOrbitSegments, trig)), parentGroup));
    }
  }

  /** The first pass, `solarSystemData.forEach(...)` over the roots. */
  method AddRootBodies(scene: SceneGraph, data: seq<BodySpec>, orbitGroup: nat, trig: Trig)
    returns (bodies: seq<CelestialBody>, bodyGroups: map<string, nat>)
    modifies scene
    ensures BuildState(scene.nodes, bodies, bodyGroups)
         == RootsPass(BuildState(old(scene.nodes), [], map[]), data, orbitGroup, trig)
  {
    ghost var start := BuildState(scene.nodes, [], map[]);
    bodies, bodyGroups := [], map[];
    var i := 0;
    while i < |data|
      invariant 0 <= i <= |data|
      invariant BuildState(scene.nodes, bodies, bodyGroups) == RootsPass(start, data[..i], orbitGroup, trig)
    {
      var d := data[i];
      var mesh, objectGroup := AddRootBody(scene, d, orbitGroup, trig);
      bodyGroups := bodyGroups[d.name := objectGroup];
      bodies := bodies + [CelestialBody(mesh, objectGroup, d)];
      assert data[..i + 1][..i] == data[..i];
      i := i + 1;
    }
    assert data[..i] == data;
  }

  /** The inner loop of the second pass: the moons of one parent. */
  method AddMoons(scene: SceneGraph, bodies: seq<CelestialBody>, bodyGroups: map<string, nat>,
                  parentData: BodySpec, parentGroup: nat, trig: Trig)
    returns (bodies': seq<CelestialBody>)
    modifies scene
    ensures BuildState(scene.nodes, bodies', bodyGroups)
         == MoonsStep(BuildState(old(scene.nodes), bodies, bodyGroups), parentData.moons,
                      parentData.name, parentGroup, trig)
  {
    ghost var before := BuildState(scene.nodes, bodies, bodyGroups);
    bodies' := bodies;
    var k := 0;
    while k < |parentData.moons|
      invariant 0 <= k <= |parentData.moons|
      invariant BuildState(scene.nodes, bodies', bodyGroups)
             == MoonsStep(before, parentData.moons[..k], parentData.name, parentGroup, trig)
    {
      var body := AddMoonBody(scene, parentData.moons[k], parentData.name, parentGroup, trig);
      bodies' := bodies' + [body];
      assert parentData.moons[..k + 1][..k] == parentData.moons[..k];
      k := k + 1;
    }
    assert parentData.moons[..k] == parentData.moons;
  }

  /** The second pass, `solarSystemData.forEach(...)` over the parents of moons. */
  method AddAllMoons(scene: SceneGraph, bodies: seq<CelestialBody>, bodyGroups: map<string, nat>,
                     data: seq<BodySpec>, trig: Trig)
    returns (bodies': seq<CelestialBody>)
    modifies scene
    ensures BuildState(scene.nodes, bodies', bodyGroups)
         == MoonsPass(BuildState(old(scene.nodes), bodies, bodyGroups), data, trig)
  {
    ghost var start := BuildState(scene.nodes, bodies, bodyGroups);
    bodies' := bodies;
    var i := 0;
    while i < |data|
      invariant 0 <= i <= |data|
      invariant BuildState(scene.nodes, bodies', bodyGroups) == MoonsPass(start, data[..i], trig)
    {
      var parentData := data[i];
      if |parentData.moons| > 0 && parentData.name in bodyGroups {
        var parentGroup := bodyGroups[parentData.name];
        bodies' := AddMoons(scene, bodies', bodyGroups, parentData, parentGroup, trig);
      }
      assert data[..i + 1][..i] == data[..i];
      i := i + 1;
    }
    assert data[..i] == data;
  }

  /**
   * `createSolarSystem`: two passes over the catalogue that attach every body
   * to the scene and return `celestialBodies`. The starfield is left out.
   */
  method CreateSolarSystem(scene: SceneGraph, data: seq<BodySpec>, trig: Trig)
    returns (celestialBodies: seq<CelestialBody>)
    modifies scene
    ensures scene.nodes == Build(old(scene.nodes), data, trig).nodes
    ensures celestialBodies == Build(old(scene.nodes), data, trig).bodies
  {
    var orbitGroup := scene.Attach(Child(Group, 0));
    var bodies, bodyGroups := AddRootBodies(scene, data, orbitGroup, trig);
    celestialBodies := AddAllMoons(scene, bodies, bodyGroups, data, trig);
  }
}
