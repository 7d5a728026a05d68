/**
 * The scene `createSolarSystem` builds from the catalogue of data.js in a
 * fresh scene: thirteen bodies, the Moon's group inside Earth's group, a guide
 * circle for every body but the Sun and one ring, Saturn's.
 */
module SolarSystemScene {
  import opened Wrappers
  import opened Registry
  import opened Scene
  import opened Builder
  import opened BuilderFacts
  import opened BuilderCounts

  /** The scene as `new THREE.Scene()` creates it. */
  const EmptyScene: seq<Node> := [Node(SceneRoot, None, "", None, Origin, Origin)]

  /** The catalogue's moons, linked: the Moon, linked to Earth. */
  lemma CatalogueLinkedMoons()
    ensures LinkedMoons(SolarSystemData) == [Linked(Moon, "Earth")]
  {
    var s := SolarSystemData;
    MoonlessRoots();
    assert s == (s[..3] + [Earth]) + s[4..];
    LinkedMoonsMoonless(s[..3]);
    LinkedMoonsMoonless(s[4..]);
    LinkedMoonsAppend(s[..3] + [Earth], s[4..]);
    LinkedMoonsAppend(s[..3], [Earth]);
    assert [Earth][..0] == [];
    assert LinkedMoons([Earth]) == LinkedMoons([]) + LinkedMoonsOf(Earth);
    assert LinkedMoonsOf(Earth) == [Linked(Moon, "Earth")];
  }

  lemma CatalogueRootNamesUnique()
    ensures UniqueNames(SolarSystemData)
  {
    RootNames();
    BodyNamesDistinct();
  }

  /** Root `j` is Earth exactly when it is the root at index 3. */
  lemma EarthIsRootThree(j: nat)
    requires j < |SolarSystemData| && SolarSystemData[j].name == "Earth"
    ensures j == 3
  {
    RootNames();
    BodyNamesDistinct();
    assert BodyNames[3] == "Earth";
  }

  lemma CatalogueCounts()
    ensures CountOrbiting(SolarSystemData + LinkedMoons(SolarSystemData)) == 12
    ensures CountRinged(SolarSystemData) == 1
  {
    var s := SolarSystemData;
    CatalogueLinkedMoons();
    SunIsTheOnlyFixedBody();
    CatalogueMoons();
    SingularFeatures();
    var all := s + [Linked(Moon, "Earth")];
    assert all == [Sun] + all[1..];
    CountBodiesAppend([Sun], all[1..]);
    CountBodiesSnoc([], Sun);
    CountAllOrbiting(all[1..]);
    assert s == (s[..7] + [Saturn]) + s[8..];
    forall i | 0 <= i < 7 ensures !s[..7][i].addRings {
      assert s[..7][i] == AllBodies(s)[i];
    }
    forall i | 0 <= i < |s[8..]| ensures !s[8..][i].addRings {
      assert s[8..][i] == AllBodies(s)[i + 8];
    }
    CountNoneRinged(s[..7]);
    CountNoneRinged(s[8..]);
    CountBodiesAppend(s[..7] + [Saturn], s[8..]);
    CountBodiesAppend(s[..7], [Saturn]);
    CountBodiesSnoc([], Saturn);
  }

  /** What `createSolarSystem(scene)` builds in a fresh scene. */
  function SolarSystem(trig: Trig): BuildState
  {
    Build(EmptyScene, SolarSystemData, trig)
  }

  /** The solar system scene is a rigid tree whose bodies satisfy the body invariant. */
  lemma SolarSystemWellFormed(trig: Trig)
    ensures SceneOk(SolarSystem(trig).nodes) && BodiesOk(SolarSystem(trig).nodes, SolarSystem(trig).bodies)
  {
    assert SceneOk(EmptyScene);
    BuildSceneOk(EmptyScene, SolarSystemData, trig);
    BuildBodiesOk(EmptyScene, SolarSystemData, trig);
  }

  /**
   * 13 bodies: the 12 roots in catalogue order, each with its group attached
   * to the scene, and then the Moon, linked to Earth.
   */
  lemma SolarSystemBodies(trig: Trig)
    ensures var b := SolarSystem(trig);
      && |b.bodies| == 13 && |b.nodes| > 1
      && (forall i :: 0 <= i < 12 ==>
            b.bodies[i].data == SolarSystemData[i] && b.bodies[i].group < |b.nodes| &&
            b.nodes[b.bodies[i].group] == Child(Group, 0))
      && b.bodies[12].data == Linked(Moon, "Earth")
  {
    var b := SolarSystem(trig);
    assert SceneOk(EmptyScene);
    CatalogueMoons();
    BuildBodyCount(EmptyScene, SolarSystemData, trig);
    BuildRootPlacement(EmptyScene, SolarSystemData, trig);
    BuildBodies(EmptyScene, SolarSystemData, trig);
    CatalogueLinkedMoons();
    assert b.bodies[12].data == Datas(b.bodies)[12];
  }

  /** The Moon's group is attached to Earth's group. */
  lemma SolarSystemMoonOrbitsEarth(trig: Trig)
    ensures var b := SolarSystem(trig);
      |b.bodies| == 13 && b.bodies[12].group < |b.nodes| &&
      b.nodes[b.bodies[12].group] == Child(Group, b.bodies[3].group)
  {
    var b := SolarSystem(trig);
    var data := SolarSystemData;
    assert SceneOk(EmptyScene);
    CatalogueMoons();
    BuildBodyCount(EmptyScene, data, trig);
    CatalogueRootNamesUnique();
    BuildMoonPlacement(EmptyScene, data, trig);
    assert PlacedUnderRoot(b.nodes, b.bodies, data, 12, trig);
    var j :| 0 <= j < |data| && |data[j].moons| > 0 && MoonUnder(b.nodes, b.bodies[12], data[j], b.bodies[j].group, trig);
    BuildBodies(EmptyScene, data, trig);
    CatalogueLinkedMoons();
    assert b.bodies[12].data == Datas(b.bodies)[12];
    EarthIsRootThree(j);
  }

  /** Every body but the Sun gets a guide circle; Saturn alone gets a ring. */
  lemma SolarSystemGuides(trig: Trig)
    ensures CountOrbitLines(SolarSystem(trig).nodes) == 12
    ensures CountRings(SolarSystem(trig).nodes) == 1
  {
    BuildCounts(EmptyScene, SolarSystemData, trig);
    CatalogueCounts();
    CountSingle(EmptyScene[0]);
  }
}
