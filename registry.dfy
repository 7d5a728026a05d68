/**
 * The body registry of data.js: a constant catalogue of root bodies (the Sun,
 * the planets and the dwarf planets), one of which carries a nested moon, and
 * the one global speed multiplier that scales every orbital and rotational
 * speed at animation time.
 *
 * Optional JavaScript properties are modelled as follows: a missing
 * `isLightSource` or `addRings` is `false`, a missing `axialTilt` is `None`,
 * a missing `moons` array is the empty sequence (the builder treats both the
 * same way), and `parent` is absent (`None`) in the catalogue; the builder sets
 * it on the copies of the moons it places in the scene.
 */
module Registry {
  import opened Wrappers

  /** The descriptive payload shown in the info panel. */
  datatype Info = Info(description: Option<string>, details: Option<seq<string>>)

  /** One catalogue entry; angular speeds are per second before the global multiplier. */
  datatype BodySpec = BodySpec(
    name: string,
    radius: real,
    texture: string,
    orbitalRadius: real,
    orbitalSpeed: real,
    rotationSpeed: real,
    isLightSource: bool := false,
    axialTilt: Option<real> := None,
    addRings: bool := false,
    info: Option<Info> := None,
    moons: seq<BodySpec> := [],
    parent: Option<string> := None)

  /** The single process-wide speed multiplier; no body carries a multiplier of its own. */
  const GlobalSpeedMultiplier: real := 5.0

  /** Math.PI as the double-precision value JavaScript uses. */
  const Pi: real := 3.141592653589793

  const Sun := BodySpec(
    name := "Sun",
    radius := 7.0,
    texture := "textures/sun_texture.jpg",
    orbitalRadius := 0.0,
    orbitalSpeed := 0.0,
    rotationSpeed := 0.004,
    isLightSource := true,
    info := Some(Info(
      Some("The star at the center of our Solar System. Its gravity holds the system together. It's a nearly perfect ball of hot plasma, heated by nuclear fusion reactions in its core."),
      Some([
        "Type: G-type main-sequence star (G2V)",
        "Age: ~4.6 billion years",
        "Diameter: ~1.39 million km (109x Earth)",
        "Mass: ~333,000 x Earth",
        "Surface Temp: ~5,500 °C",
        "Core Temp: ~15 million °C",
        "Composition: ~74% Hydrogen, ~24% Helium"]))))

  const Mercury := BodySpec(
    name := "Mercury",
    radius := 0.5,
    texture := "textures/mercury_texture.jpg",
    orbitalRadius := 18.0,
    orbitalSpeed := 0.04 * 1.6,
    rotationSpeed := 0.002,
    info := Some(Info(
      Some("The smallest planet in the Solar System and closest to the Sun. It has a heavily cratered surface resembling Earth's Moon and extreme temperature variations."),
      Some([
        "Type: Terrestrial Planet",
        "Diameter: ~4,880 km",
        "Avg Distance from Sun: ~58 million km",
        "Orbital Period (Year): ~88 Earth days",
        "Rotation Period (Day): ~59 Earth days",
        "Surface Temp: -173°C to 427°C",
        "Moons: 0",
        "Atmosphere: Very thin (exosphere)",
        "Gravity: ~0.38 x Earth"]))))

  const Venus := BodySpec(
    name := "Venus",
    radius := 0.9,
    texture := "textures/venus_texture.jpg",
    orbitalRadius := 25.0,
    orbitalSpeed := 0.025 * 1.6,
    rotationSpeed := -0.0015, // retrograde
    info := Some(Info(
      Some("Often called Earth's 'sister planet' due to similar size and mass. It has a thick, toxic atmosphere of carbon dioxide and sulfuric acid clouds, creating a runaway greenhouse effect."),
      Some([
        "Type: Terrestrial Planet",
        "Diameter: ~12,104 km",
        "Avg Distance from Sun: ~108 million km",
        "Orbital Period (Year): ~225 Earth days",
        "Rotation Period (Day): ~243 Earth days (Retrograde!)",
        "Surface Temp: ~462 °C (Hottest planet!)",
        "Moons: 0",
        "Atmosphere: Thick CO2 (92x Earth pressure)",
        "Gravity: ~0.91 x Earth"]))))

  const Moon := BodySpec(
    name := "Moon",
    radius := 0.27,
    texture := "textures/moon_texture.jpg",
    orbitalRadius := 3.0,
    orbitalSpeed := 0.05,
    rotationSpeed := 0.005,
    info := Some(Info(
      Some("Earth's only natural satellite and the fifth largest moon in the Solar System. Its gravitational pull causes Earth's tides."),
      Some([
        "Type: Natural Satellite",
        "Diameter: ~3,474 km",
        "Orbit (Earth): ~27.3 days",
        "Rotation: Tidally locked (same side always faces Earth)",
        "Surface Temp: -173°C to 127°C",
        "Gravity: ~0.165 x Earth",
        "Atmosphere: Negligible"]))))

  const Earth := BodySpec(
    name := "Earth",
    radius := 1.0,
    texture := "textures/earth_texture.jpg",
    orbitalRadius := 35.0,
    orbitalSpeed := 0.015 * 1.6,
    rotationSpeed := 0.01,
    info := Some(Info(
      Some("Our home planet, the third from the Sun and the only known place in the universe to harbor life. It has liquid water on its surface and a protective atmosphere."),
      Some([
        "Type: Terrestrial Planet",
        "Diameter: ~12,742 km",
        "Avg Distance from Sun: ~150 million km (1 AU)",
        "Orbital Period (Year): ~365.25 days",
        "Rotation Period (Day): ~23.9 hours",
        "Axial Tilt: ~23.5 degrees",
        "Surface Temp: Avg ~15 °C",
        "Moons: 1 (The Moon)",
        "Atmosphere: Nitrogen, Oxygen",
        "Gravity: 1 G (standard)"]))),
    moons := [Moon])

  const Mars := BodySpec(
    name := "Mars",
    radius := 0.7,
    texture := "textures/mars_texture.jpg",
    orbitalRadius := 48.0,
    orbitalSpeed := 0.01 * 1.6,
    rotationSpeed := 0.0095,
    info := Some(Info(
      Some("Known as the 'Red Planet' due to iron oxide on its surface. It's a cold, desert world with polar ice caps, canyons, extinct volcanoes (including Olympus Mons, the largest), and evidence of past liquid water."),
      Some([
        "Type: Terrestrial Planet",
        "Diameter: ~6,779 km",
        "Avg Distance from Sun: ~228 million km",
        "Orbital Period (Year): ~687 Earth days",
        "Rotation Period (Day): ~24.6 hours (Similar to Earth)",
        "Axial Tilt: ~25.2 degrees (Similar to Earth)",
        "Surface Temp: -153°C to 20°C",
        "Moons: 2 (Phobos, Deimos)",
        "Atmosphere: Thin CO2",
        "Gravity: ~0.38 x Earth"]))))

  const Ceres := BodySpec(
    name := "Ceres",
    radius := 0.25,
    texture := "textures/ceres_texture.jpg",
    orbitalRadius := 60.0,
    orbitalSpeed := 0.007 * 1.6,
    rotationSpeed := 0.008,
    info := Some(Info(
      Some("The largest object in the asteroid belt between Mars and Jupiter, and the only dwarf planet located in the inner Solar System. It may contain a significant amount of water ice."),
      Some([
        "Type: Dwarf Planet (Asteroid Belt)",
        "Diameter: ~940 km",
        "Avg Distance from Sun: ~414 million km",
        "Orbital Period (Year): ~4.6 Earth years",
        "Rotation Period (Day): ~9 hours",
        "Surface Temp: Avg ~-105 °C",
        "Moons: 0",
        "Gravity: ~0.029 x Earth"]))))

  const Jupiter := BodySpec(
    name := "Jupiter",
    radius := 4.0,
    texture := "textures/jupiter_texture.jpg",
    orbitalRadius := 85.0,
    orbitalSpeed := 0.005 * 1.6,
    rotationSpeed := 0.022,
    info := Some(Info(
      Some("The largest planet in our Solar System, a gas giant primarily composed of hydrogen and helium. Famous for its Great Red Spot, a persistent giant storm, and its strong magnetic field."),
      Some([
        "Type: Gas Giant",
        "Diameter: ~139,820 km (11x Earth)",
        "Avg Distance from Sun: ~778 million km",
        "Orbital Period (Year): ~11.9 Earth years",
        "Rotation Period (Day): ~9.9 hours (Fastest rotation)",
        "Cloud Top Temp: ~-145 °C",
        "Moons: 95+ (incl. Io, Europa, Ganymede, Callisto)",
        "Atmosphere: Hydrogen, Helium",
        "Gravity: ~2.53 x Earth"]))))

  const Saturn := BodySpec(
    name := "Saturn",
    radius := 3.5,
    texture := "textures/saturn_texture.jpg",
    orbitalRadius := 120.0,
    orbitalSpeed := 0.003 * 1.6,
    rotationSpeed := 0.02,
    addRings := true,
    info := Some(Info(
      Some("The sixth planet, a gas giant famous for its extensive and spectacular ring system, composed mostly of ice particles. It's the least dense planet in the Solar System."),
      Some([
        "Type: Gas Giant",
        "Diameter: ~116,460 km (9x Earth, w/o rings)",
        "Avg Distance from Sun: ~1.4 billion km",
        "Orbital Period (Year): ~29.5 Earth years",
        "Rotation Period (Day): ~10.7 hours",
        "Cloud Top Temp: ~-178 °C",
        "Moons: 146+ (incl. Titan, Enceladus)",
        "Atmosphere: Hydrogen, Helium",
        "Gravity: ~1.06 x Earth",
        "Feature: Prominent Ring System"]))))

  const Uranus := BodySpec(
    name := "Uranus",
    radius := 2.5,
    texture := "textures/uranus_texture.jpg",
    orbitalRadius := 160.0,
    orbitalSpeed := 0.002 * 1.6,
    rotationSpeed := 0.016,
    axialTilt := Some(97.77 * (Pi / 180.0)),
    info := Some(Info(
      Some("The seventh planet, an ice giant with a unique feature: it rotates on its side, with its axis tilted almost parallel to its orbit, possibly due to a past collision."),
      Some([
        "Type: Ice Giant",
        "Diameter: ~50,724 km (4x Earth)",
        "Avg Distance from Sun: ~2.9 billion km",
        "Orbital Period (Year): ~84 Earth years",
        "Rotation Period (Day): ~17.2 hours (Retrograde)",
        "Axial Tilt: ~97.8 degrees (Extreme!)",
        "Cloud Top Temp: ~-216 °C",
        "Moons: 27+ (incl. Titania, Oberon)",
        "Atmosphere: Hydrogen, Helium, Methane (causes blue color)",
        "Gravity: ~0.89 x Earth"]))))

  const Neptune := BodySpec(
    name := "Neptune",
    radius := 2.4,
    texture := "textures/neptune_texture.jpg",
    orbitalRadius := 200.0,
    orbitalSpeed := 0.001 * 1.6,
    rotationSpeed := 0.015,
    info := Some(Info(
      Some("The eighth and farthest known planet from the Sun (since Pluto's reclassification). It's a dark, cold ice giant with the strongest winds in the Solar System and occasional large dark storms."),
      Some([
        "Type: Ice Giant",
        "Diameter: ~49,244 km (~3.9x Earth)",
        "Avg Distance from Sun: ~4.5 billion km",
        "Orbital Period (Year): ~165 Earth years",
        "Rotation Period (Day): ~16.1 hours",
        "Cloud Top Temp: ~-214 °C",
        "Moons: 14+ (incl. Triton)",
        "Atmosphere: Hydrogen, Helium, Methane",
        "Gravity: ~1.14 x Earth",
        "Feature: Supersonic Winds"]))))

  const Pluto := BodySpec(
    name := "Pluto",
    radius := 0.3,
    texture := "textures/pluto_texture.jpg",
    orbitalRadius := 240.0,
    orbitalSpeed := 0.0005 * 1.6,
    rotationSpeed := 0.003,
    info := Some(Info(
      Some("A dwarf planet in the Kuiper Belt, a region of icy bodies beyond Neptune. It was considered the ninth planet until 2006. It has a surprisingly complex surface and a thin, seasonal atmosphere."),
      Some([
        "Type: Dwarf Planet (Kuiper Belt Object)",
        "Diameter: ~2,377 km",
        "Orbit: Highly Elliptical & Inclined",
        "Avg Distance from Sun: ~5.9 billion km",
        "Orbital Period (Year): ~248 Earth years",
        "Rotation Period (Day): ~6.4 Earth days (Retrograde)",
        "Surface Temp: Avg ~-229 °C",
        "Moons: 5 (incl. Charon)",
        "Atmosphere: Thin Nitrogen, Methane, CO (seasonal)",
        "Gravity: ~0.063 x Earth"]))))

  const Eris := BodySpec(
    name := "Eris",
    radius := 0.32,
    texture := "textures/eris_texture.jpg",
    orbitalRadius := 280.0,
    orbitalSpeed := 0.0003 * 1.6,
    rotationSpeed := 0.002,
    info := Some(Info(
      Some("One of the largest known dwarf planets, located in the scattered disc beyond the Kuiper Belt. Its discovery was a key factor in the IAU's 2006 definition of 'planet' and reclassification of Pluto."),
      Some([
        "Type: Dwarf Planet (Scattered Disc Object)",
        "Diameter: ~2,326 km (Similar to Pluto)",
        "Orbit: Very Elliptical & Inclined",
        "Avg Distance from Sun: ~10.1 billion km",
        "Orbital Period (Year): ~558 Earth years",
        "Rotation Period (Day): ~25.9 hours",
        "Surface Temp: Avg ~-240 °C",
        "Moons: 1 (Dysnomia)",
        "Gravity: ~0.084 x Earth (estimated)"]))))

  /** `solarSystemData`: the root bodies in display order; the Moon is nested in Earth. */
  const SolarSystemData: seq<BodySpec> :=
    [Sun, Mercury, Venus, Earth, Mars, Ceres, Jupiter, Saturn, Uranus, Neptune, Pluto, Eris]

  /** The moons of the given roots, parent by parent and, within a parent, in moon order. */
  function MoonsOf(roots: seq<BodySpec>): (ms: seq<BodySpec>)
    ensures roots == [] ==> ms == []
  {
    if roots == [] then [] else roots[0].moons + MoonsOf(roots[1..])
  }

  /** Every body of the catalogue: the roots in order, then their moons. */
  function AllBodies(roots: seq<BodySpec>): seq<BodySpec>
  {
    roots + MoonsOf(roots)
  }

  /** No two bodies share a name, so a name identifies a body. */
  ghost predicate UniqueNames(bodies: seq<BodySpec>)
  {
    forall i, j :: 0 <= i < j < |bodies| ==> bodies[i].name != bodies[j].name
  }

  /** The `orbitalRadius` column of a list of bodies. */
  function OrbitalRadii(bodies: seq<BodySpec>): (rs: seq<real>)
    ensures |rs| == |bodies| && forall i :: 0 <= i < |bodies| ==> rs[i] == bodies[i].orbitalRadius
  {
    seq(|bodies|, i requires 0 <= i < |bodies| => bodies[i].orbitalRadius)
  }

  /** Flattening the moons distributes over concatenating root lists. */
  lemma {:induction false} MoonsOfAppend(a: seq<BodySpec>, b: seq<BodySpec>)
    ensures MoonsOf(a + b) == MoonsOf(a) + MoonsOf(b)
  {
    if a == [] {
      assert a + b == b;
    } else {
      assert (a + b)[1..] == a[1..] + b;
      MoonsOfAppend(a[1..], b);
    }
  }

  /** Roots without moons contribute nothing to the flattened moon list. */
  lemma {:induction false} MoonsOfMoonless(roots: seq<BodySpec>)
    requires forall i :: 0 <= i < |roots| ==> roots[i].moons == []
    ensures MoonsOf(roots) == []
  {
    if roots != [] {
      MoonsOfMoonless(roots[1..]);
    }
  }

  /** The names of the 13 bodies, roots in catalogue order and then the Moon. */
  const BodyNames: seq<string> :=
    ["Sun", "Mercury", "Venus", "Earth", "Mars", "Ceres", "Jupiter", "Saturn",
     "Uranus", "Neptune", "Pluto", "Eris", "Moon"]

  lemma BodyNamesDistinct()
    ensures forall i, j :: 0 <= i < j < |BodyNames| ==> BodyNames[i] != BodyNames[j]
  {
  }

  lemma RootNames()
    ensures |SolarSystemData| == 12
    ensures forall i :: 0 <= i < 12 ==> SolarSystemData[i].name == BodyNames[i]
  {
  }

  lemma MoonlessRoots()
    ensures forall i :: 0 <= i < 12 && i != 3 ==> SolarSystemData[i].moons == []
  {
  }

  /** The catalogue's moons are exactly the Moon, nested in Earth. */
  lemma CatalogueMoons()
    ensures SolarSystemData[3] == Earth && Earth.moons == [Moon] && Moon.name == "Moon"
    ensures MoonsOf(SolarSystemData) == [Moon]
    ensures AllBodies(SolarSystemData) == SolarSystemData + [Moon]
  {
    var s := SolarSystemData;
    MoonlessRoots();
    assert s == s[..3] + [Earth] + s[4..];
    MoonsOfMoonless(s[..3]);
    MoonsOfMoonless(s[4..]);
    MoonsOfAppend(s[..3] + [Earth], s[4..]);
    MoonsOfAppend(s[..3], [Earth]);
    assert MoonsOf([Earth]) == [Moon] + MoonsOf([]);
  }

  /** Only Earth has moons: exactly one, the Moon, which clears Earth's surface. */
  lemma OnlyEarthHasMoons()
    ensures forall i :: 0 <= i < |SolarSystemData| ==>
      (SolarSystemData[i].moons != [] <==> SolarSystemData[i].name == "Earth")
    ensures SolarSystemData[3] == Earth && Earth.moons == [Moon] && Moon.name == "Moon"
    ensures Moon.orbitalRadius > Earth.radius + Moon.radius
    ensures MoonsOf(SolarSystemData) == [Moon]
    ensures AllBodies(SolarSystemData) == SolarSystemData + [Moon]
  {
    RootNames();
    BodyNamesDistinct();
    MoonlessRoots();
    CatalogueMoons();
    assert BodyNames[3] == "Earth";
  }

  /** The Sun comes first; it is the only fixed root and the only light source. */
  lemma SunIsTheOnlyFixedBody()
    ensures SolarSystemData[0] == Sun && Sun.name == "Sun"
    ensures Sun.orbitalRadius == 0.0 && Sun.orbitalSpeed == 0.0 && Sun.isLightSource
    ensures forall i :: 0 < i < |SolarSystemData| ==>
      SolarSystemData[i].orbitalRadius > 0.0 && !SolarSystemData[i].isLightSource
    ensures forall b :: b in MoonsOf(SolarSystemData) ==> b.orbitalRadius > 0.0 && !b.isLightSource
  {
    CatalogueMoons();
  }

  /** The root orbital radii, in list order, strictly increase from the Sun's 0. */
  lemma RootOrbitsIncrease()
    ensures OrbitalRadii(SolarSystemData)
      == [0.0, 18.0, 25.0, 35.0, 48.0, 60.0, 85.0, 120.0, 160.0, 200.0, 240.0, 280.0]
    ensures forall i, j :: 0 <= i < j < |SolarSystemData| ==>
      SolarSystemData[i].orbitalRadius < SolarSystemData[j].orbitalRadius
  {
  }

  /** Every body, moons included, has a positive radius and a non-negative orbital radius. */
  lemma RadiiInRange()
    ensures forall b :: b in AllBodies(SolarSystemData) ==> b.radius > 0.0 && b.orbitalRadius >= 0.0
  {
    CatalogueMoons();
    var all := SolarSystemData + [Moon];
    assert forall i :: 0 <= i < |all| ==> all[i].radius > 0.0 && all[i].orbitalRadius >= 0.0;
  }

  /** The 13 bodies (12 roots and the Moon) have 13 distinct names. */
  lemma NamesAreDistinct()
    ensures |AllBodies(SolarSystemData)| == 13
    ensures forall i :: 0 <= i < 13 ==> AllBodies(SolarSystemData)[i].name == BodyNames[i]
    ensures UniqueNames(AllBodies(SolarSystemData))
  {
    CatalogueMoons();
    RootNames();
    BodyNamesDistinct();
    var all := SolarSystemData + [Moon];
    assert forall i :: 0 <= i < 13 ==> all[i].name == BodyNames[i];
  }

  /** Venus alone rotates backwards, Saturn alone has rings, Uranus alone is tilted. */
  lemma SingularFeatures()
    ensures AllBodies(SolarSystemData)[2] == Venus
    ensures AllBodies(SolarSystemData)[7] == Saturn
    ensures AllBodies(SolarSystemData)[8] == Uranus
    ensures forall i :: 0 <= i < |AllBodies(SolarSystemData)| ==>
      (AllBodies(SolarSystemData)[i].rotationSpeed < 0.0 <==> i == 2)
    ensures forall i :: 0 <= i < |AllBodies(SolarSystemData)| ==>
      (AllBodies(SolarSystemData)[i].addRings <==> i == 7)
    ensures forall i :: 0 <= i < |AllBodies(SolarSystemData)| ==>
      (AllBodies(SolarSystemData)[i].axialTilt.Some? <==> i == 8)
  {
    CatalogueMoons();
  }
}
