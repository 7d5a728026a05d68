/**
 * The animation of the scene built from the catalogue: after any frames the
 * planets and the Sun sit where their own orbits put them around the scene's
 * centre, and the Moon sits on its orbit around wherever Earth is.
 */
module SolarSystemMotion {
  import opened Wrappers
  import opened Registry
  import opened Scene
  import opened Builder
  import opened SolarSystemScene
  import opened Animation

  /**
   * After any sequence of frames, each of the twelve catalogue bodies is at
   * `(cos(a) * R, 0, sin(a) * R)` in the world, for its orbital radius `R` and
   * its angle `a` at the last frame's elapsed time; the Sun, whose radius is
   * 0, stays at the centre, and before the first frame every body is there.
   */
  lemma RootBodiesOrbitTheCentre(trig: Trig, frames: seq<Frame>, i: nat)
    requires i < 12
    ensures var b := SolarSystem(trig);
      && BodiesInRange(b.nodes, b.bodies) && i < |b.bodies|
      && var r := Run(b.nodes, b.bodies, frames, trig);
         var d := b.bodies[i].data;
         && d == SolarSystemData[i]
         && Tree(r) && b.bodies[i].mesh < |r|
         && WorldPosition(r, b.bodies[i].mesh)
            == (if frames != [] && d.orbitalRadius > 0.0 then OrbitPoint(d, frames[|frames| - 1].elapsed, trig)
                else Origin)
  {
    var b := SolarSystem(trig);
    SolarSystemWellFormed(trig);
    SolarSystemBodies(trig);
    if frames == [] {
      WorldPositionOfRootMesh(b.nodes, b.bodies[i].mesh, b.bodies[i].group);
    } else {
      RootAfterRun(b.nodes, b.bodies, frames, trig, i);
    }
  }

  /**
   * After any non-empty sequence of frames, the Moon is at Earth's point on
   * Earth's orbit plus the Moon's point on its own orbit around Earth, both
   * for the last frame's elapsed time.
   */
  lemma MoonFollowsEarth(trig: Trig, frames: seq<Frame>)
    requires frames != []
    ensures var b := SolarSystem(trig);
      && BodiesInRange(b.nodes, b.bodies) && |b.bodies| == 13
      && var r := Run(b.nodes, b.bodies, frames, trig);
         var t := frames[|frames| - 1].elapsed;
         var e := OrbitalAngle(Earth, t);
         var m := OrbitalAngle(Moon, t);
         && Tree(r) && b.bodies[12].mesh < |r|
         && WorldPosition(r, b.bodies[12].mesh)
            == Vec3(trig.cos(e) * Earth.orbitalRadius + trig.cos(m) * Moon.orbitalRadius,
                    0.0,
                    trig.sin(e) * Earth.orbitalRadius + trig.sin(m) * Moon.orbitalRadius)
  {
    var b := SolarSystem(trig);
    SolarSystemWellFormed(trig);
    SolarSystemBodies(trig);
    SolarSystemMoonOrbitsEarth(trig);
    CatalogueMoons();
    MoonAfterRun(b.nodes, b.bodies, frames, trig, 3, 12);
  }
}
