/**
 * The slice of the Three.js scene graph that the solar system touches: a store
 * of object nodes (the scene itself, groups, meshes and lines), each with a
 * parent, a local position and a local rotation. Object references are indices
 * into the store; node 0 is the scene. Geometry, materials and textures belong
 * to the renderer and appear only as the parameters the core passes to them.
 */
module Scene {
  import opened Wrappers
  import opened Registry

  datatype Vec3 = Vec3(x: real, y: real, z: real)

  const Origin: Vec3 := Vec3(0.0, 0.0, 0.0)

  function Add(a: Vec3, b: Vec3): Vec3
  {
    Vec3(a.x + b.x, a.y + b.y, a.z + b.z)
  }

  /** Math.cos and Math.sin, whose values the model does not fix. */
  datatype Trig = Trig(cos: real -> real, sin: real -> real)

  /** The one fact about cos and sin that the guide circles and orbits rely on. */
  ghost predicate Pythagorean(trig: Trig)
  {
    forall a :: trig.cos(a) * trig.cos(a) + trig.sin(a) * trig.sin(a) == 1.0
  }

  /**
   * What a node is. A sphere mesh records its geometry radius and whether it
   * uses the unlit material (the light source); a ring records its radii; an
   * orbit line records its points.
   */
  datatype NodeKind =
    | SceneRoot
    | Group
    | Sphere(radius: real, unlit: bool)
    | Ring(innerRadius: real, outerRadius: real)
    | OrbitLine(points: seq<Vec3>)

  datatype Node = Node(
    kind: NodeKind,
    parent: Option<nat>,
    name: string,
    userData: Option<BodySpec>,
    position: Vec3,
    rotation: Vec3)

  /** A fresh child of `parent`, with no name, no data and identity transform. */
  function Child(kind: NodeKind, parent: nat): Node
  {
    Node(kind, Some(parent), "", None, Origin, Origin)
  }

  /** `celestialBodies` entries: `{ mesh, group, data }`. */
  datatype CelestialBody = CelestialBody(mesh: nat, group: nat, data: BodySpec)

  /**
   * The store is a tree rooted at the scene: every other node hangs under a
   * node created before it.
   */
  ghost predicate Tree(nodes: seq<Node>)
  {
    && |nodes| > 0
    && nodes[0].kind == SceneRoot
    && nodes[0].parent == None
    && forall i :: 0 < i < |nodes| ==> nodes[i].parent.Some? && nodes[i].parent.value < i
  }

  /** No node has `id` as its parent. */
  ghost predicate Leaf(nodes: seq<Node>, id: nat)
  {
    forall i :: 0 <= i < |nodes| ==> nodes[i].parent != Some(id)
  }

  /**
   * Every node that has children is unrotated, so a world position is the sum
   * of the local positions on the path to the scene.
   */
  ghost predicate RigidAncestors(nodes: seq<Node>)
  {
    forall i :: 0 <= i < |nodes| && nodes[i].parent.Some? && nodes[i].parent.value < |nodes| ==>
      nodes[nodes[i].parent.value].rotation == Origin
  }

  /** A scene tree whose root sits unrotated at the origin and whose parents are all unrotated. */
  ghost predicate SceneOk(nodes: seq<Node>)
  {
    && Tree(nodes)
    && RigidAncestors(nodes)
    && nodes[0].position == Origin
    && nodes[0].rotation == Origin
  }

  /** `getWorldPosition`: the local positions folded over the ancestors. */
  function WorldPosition(nodes: seq<Node>, id: nat): Vec3
    requires Tree(nodes) && id < |nodes|
    decreases id
  {
    if id == 0 then nodes[0].position
    else Add(WorldPosition(nodes, nodes[id].parent.value), nodes[id].position)
  }

  /** Every body's mesh and group are distinct nodes of the store. */
  ghost predicate DistinctBodyNodes(nodes: seq<Node>, bodies: seq<CelestialBody>)
  {
    && (forall i :: 0 <= i < |bodies| ==>
          0 < bodies[i].group < |nodes| && 0 < bodies[i].mesh < |nodes|)
    && (forall i, j :: 0 <= i < |bodies| && 0 <= j < |bodies| ==> bodies[i].mesh != bodies[j].group)
    && (forall i, j :: 0 <= i < j < |bodies| ==>
          bodies[i].mesh != bodies[j].mesh && bodies[i].group != bodies[j].group)
  }

  /**
   * What the builder promises of the scene and its `celestialBodies`, and the
   * animation loop keeps: a rigid tree in which each body's mesh is a named
   * sphere leaf that carries the body's data and hangs directly under its group.
   */
  ghost predicate BodiesOk(nodes: seq<Node>, bodies: seq<CelestialBody>)
  {
    && Tree(nodes)
    && RigidAncestors(nodes)
    && DistinctBodyNodes(nodes, bodies)
    && forall i :: 0 <= i < |bodies| ==>
         && nodes[bodies[i].mesh].kind.Sphere?
         && nodes[bodies[i].mesh].name == bodies[i].data.name
         && nodes[bodies[i].mesh].userData == Some(bodies[i].data)
         && nodes[bodies[i].mesh].parent == Some(bodies[i].group)
         && nodes[bodies[i].mesh].position == Origin
         && nodes[bodies[i].group].kind == Group
         && Leaf(nodes, bodies[i].mesh)
  }

  /** Two stores with the same shape, names and data, differing at most in transforms. */
  ghost predicate SameStructure(a: seq<Node>, b: seq<Node>)
  {
    && |a| == |b|
    && forall i :: 0 <= i < |a| ==>
         a[i].kind == b[i].kind && a[i].parent == b[i].parent &&
         a[i].name == b[i].name && a[i].userData == b[i].userData
  }

  /** The world position of a node whose parent is the scene, grandparent of a moon mesh. */
  lemma {:induction false} WorldPositionOfChain(nodes: seq<Node>, mesh: nat, group: nat, parentGroup: nat)
    requires Tree(nodes) && mesh < |nodes| && group < |nodes| && parentGroup < |nodes|
    requires nodes[0].position == Origin
    requires nodes[mesh].parent == Some(group) && nodes[mesh].position == Origin
    requires nodes[group].parent == Some(parentGroup)
    requires nodes[parentGroup].parent == Some(0)
    requires mesh != 0 && group != 0 && parentGroup != 0
    ensures WorldPosition(nodes, mesh) == Add(nodes[parentGroup].position, nodes[group].position)
  {
    assert WorldPosition(nodes, parentGroup) == Add(Origin, nodes[parentGroup].position);
  }

  /** The world position of a mesh whose group is attached to the scene is its group's position. */
  lemma WorldPositionOfRootMesh(nodes: seq<Node>, mesh: nat, group: nat)
    requires Tree(nodes) && mesh < |nodes| && group < |nodes|
    requires nodes[0].position == Origin
    requires nodes[mesh].parent == Some(group) && nodes[mesh].position == Origin
    requires nodes[group].parent == Some(0)
    requires mesh != 0 && group != 0
    ensures WorldPosition(nodes, mesh) == nodes[group].position
  {
    assert WorldPosition(nodes, group) == Add(Origin, nodes[group].position);
  }

  /** The scene graph owned by the page: its node store grows by attaching new objects. */
  class SceneGraph {
    var nodes: seq<Node>

    /** A scene with nothing in it. */
    constructor ()
      ensures nodes == [Node(SceneRoot, None, "", None, Origin, Origin)]
      ensures SceneOk(nodes)
    {
      nodes := [Node(SceneRoot, None, "", None, Origin, Origin)];
    }

    /** Creates an object already attached to its parent (`new` followed by `parent.add`). */
    method Attach(n: Node) returns (id: nat)
      modifies this
      ensures nodes == old(nodes) + [n]
      ensures id == |old(nodes)|
    {
      id := |nodes|;
      nodes := nodes + [n];
    }
  }

  /** The camera controls: the point the camera orbits and the zoom bounds. */
  class OrbitControls {
    var target: Vec3
    var minDistance: real
    var maxDistance: real

    /** The controls as the page sets them up: aimed at the origin, zoom between 1 and 1500. */
    constructor ()
      ensures target == Origin && minDistance == 1.0 && maxDistance == 1500.0
    {
      target := Origin;
      minDistance := 1.0;
      maxDistance := 1500.0;
    }
  }
}

