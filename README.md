# Solar system scene model

A Dafny model of the core of a Three.js solar-system viewer. The model covers five parts:

- **Catalogue.** `solarSystemData` lists twelve root bodies in display order (the Sun, the planets, Ceres, Pluto and Eris), with the Moon nested in Earth. One global speed multiplier of 5 scales every speed.
- **Builder.** `createSolarSystem` builds the scene graph in two passes.
  - The first pass gives each root a group attached to the scene. The group holds a sphere mesh, tilted about z when the body has an axial tilt. It also holds a ring when the body has `addRings`. The root gets a 128-segment guide circle in a Sun-centred orbit group when its orbital radius is positive. The group is registered under the body's name.
  - The second pass attaches each moon's group to its parent's group. The moon's 64-segment guide circle goes beside it. The moon's data gets its parent's name.
  - The result is the flat `celestialBodies` list: roots first, then moons.
- **Frame.** Each frame, every mesh turns about y by `rotationSpeed * delta * multiplier`. Every group with a positive orbital radius is moved to `(cos a * R, y, sin a * R)` with `a = elapsed * orbitalSpeed * multiplier`. If a body is selected, the camera target then moves to the world position of its mesh.
- **Selection.** A click selects the nearest body it hits, and only when that body is not already selected. A click that hits nothing changes nothing, and nothing can be deselected. Each new selection sets the zoom bounds from the body's radius and rewrites the info panel.
- **Info panel.** It shows the body's name and description, or a fallback text. Below that comes a `<li>` list of its details, in which the text after the first `:` of each detail is wrapped in `<strong>`.

Three.js objects are indices into a node store (`Scene.SceneGraph.nodes`); node 0 is the scene. Each node has a kind, a parent, a name, optional body data, a local position and a local rotation. A world position is the sum of the local positions up the ancestor chain. That is exact because no node that has children is ever rotated. The builder establishes this and the frame keeps it. `Math.cos` and `Math.sin` are parameters: a `Trig` value holding two `real -> real` functions. Only the lemmas about circles assume `cos² + sin² = 1` (`Scene.Pythagorean`). Numbers are `real`.

Modules, one concern each:

| file | module | models |
|---|---|---|
| wrappers.dfy | Wrappers | `Option` |
| registry.dfy | Registry | data.js: the catalogue and its facts |
| scene.dfy | Scene | the scene graph, world positions, the camera controls |
| builder.dfy | Builder | celestialBodyUtils.js: the two passes, as methods and as the functions that specify them |
| builder_facts.dfy | BuilderFacts | what the built scene and `celestialBodies` look like |
| builder_counts.dfy | BuilderCounts | how many guide circles and rings the builder creates |
| solar_scene.dfy | SolarSystemScene | the scene built from the catalogue |
| interaction.dfy | Interaction | interaction.js: panel text, selection state machine, the `InteractionState` class |
| animation.dfy | Animation | animation.js: one frame as a function, the frame loop as methods, lemmas over frames |
| solar_motion.dfy | SolarSystemMotion | the catalogue scene in motion |

Behaviour of the code worth noting:

- Picking a body does not set the camera target. `selectObject` leaves it alone, and the animation loop moves it every frame (interaction.js:54, animation.js:34-41).
- The zoom bounds use `radius || 1`, not `radius`. A body of radius 0 would get the bounds of radius 1.
- There is no deselection and no reset on clicking empty space.
- The speed multiplier is a module constant (data.js:10), not a parameter of the update.
- Rotation angles accumulate without being reduced modulo a full turn.

## Model

| member | source | states |
|---|---|---|
| Registry.CatalogueMoons | data.js:84-130 | Earth is root 3 and its only moon is the Moon. The flattened moon list is `[Moon]`, so all bodies are the 12 roots followed by the Moon. |
| Registry.OnlyEarthHasMoons | data.js:84-130 | A root has moons exactly when it is named "Earth". Earth has exactly one moon, the Moon. The Moon's orbital radius exceeds Earth's radius plus its own. |
| Registry.SunIsTheOnlyFixedBody | data.js:15-36 | The Sun is the first root. It has orbital radius and speed 0 and is a light source. Every other root and every moon has a positive orbital radius and is not a light source. |
| Registry.RootOrbitsIncrease | data.js:19-305 | The root orbital radii are exactly 0, 18, 25, 35, 48, 60, 85, 120, 160, 200, 240, 280, and they strictly increase along the list. |
| Registry.RadiiInRange | data.js:13-324 | Every body, the Moon included, has radius > 0 and orbital radius ≥ 0. |
| Registry.NamesAreDistinct | data.js:16-302 | There are 13 bodies with 13 listed names, pairwise distinct. |
| Registry.SingularFeatures | data.js:61-251 | Among all bodies, only Venus rotates backwards, only Saturn has rings and only Uranus has an axial tilt. |
| Scene.WorldPositionOfChain | celestialBodyUtils.js:122-125 | A mesh at the origin of its group, whose group hangs in a group attached to the scene, is at the sum of the two groups' positions. |
| Scene.WorldPositionOfRootMesh | celestialBodyUtils.js:44-75 | A mesh at the origin of a group attached to the scene is at that group's position. |
| Scene.SceneGraph.constructor | sceneSetup.js:12 | The empty scene is one unrotated root node at the origin, and it is a valid scene tree. |
| Scene.SceneGraph.Attach | celestialBodyUtils.js:16-17 | Adding an object appends exactly that node and returns its index. |
| Scene.OrbitControls.constructor | sceneSetup.js:33-36 | The controls start aimed at the origin with zoom bounds 1 and 1500. |
| Builder.AddRootBody | celestialBodyUtils.js:21-100 | Appends exactly the group, the mesh, the optional ring and the optional guide circle of one root, and returns the group's and the mesh's indices. |
| Builder.AddMoonBody | celestialBodyUtils.js:110-154 | Appends exactly one moon's group (under its parent's group), its mesh and its optional guide circle. Returns the entry whose data names the parent. |
| Builder.AddRootBodies | celestialBodyUtils.js:20-101 | The first-pass loop leaves the scene, `celestialBodies` and `bodyGroups` as the first-pass function gives them. |
| Builder.AddMoons | celestialBodyUtils.js:110-155 | The loop over one parent's moons leaves the scene and `celestialBodies` as the per-parent function gives them. |
| Builder.AddAllMoons | celestialBodyUtils.js:104-157 | The second-pass loop, which skips parents without moons or without a registered group, matches the second-pass function. |
| Builder.CreateSolarSystem | celestialBodyUtils.js:13-170 | The final scene and `celestialBodies` are those of `Build`. The lemmas below establish their properties. |
| BuilderFacts.BuildBodies | celestialBodyUtils.js:20-131 | The data of `celestialBodies` is the roots in catalogue order followed by their moons, parent by parent, each linked to its parent. |
| BuilderFacts.BuildBodyCount | celestialBodyUtils.js:77-131 | `celestialBodies` has one entry per root plus one per moon. |
| BuilderFacts.LinkedMoonsLength | celestialBodyUtils.js:110-131 | Linking keeps the number of moons. |
| BuilderFacts.LinkedMoonsParents | celestialBodyUtils.js:119 | Every linked moon names as its parent a root that has moons. |
| BuilderFacts.RootsPassRegisters | celestialBodyUtils.js:76 | With unique root names, each root's name maps to that root's own group. |
| BuilderFacts.BuildRegistersRoots | celestialBodyUtils.js:104-108 | Every root name is registered, so the "parent group missing" skip never fires. |
| BuilderFacts.BuildSceneOk | celestialBodyUtils.js:13-157 | The built scene is a rigid tree that keeps the nodes it had before and adds at least the orbit group. |
| BuilderFacts.BuildBodiesOk | celestialBodyUtils.js:36-131 | Each entry's mesh is a sphere leaf. The mesh carries the entry's data as `userData` and its name, sits at the origin of the entry's group, and is distinct from every other mesh and group. |
| BuilderFacts.BuildRootPlacement | celestialBodyUtils.js:20-101 | Each root is placed as the first pass describes. Its group is attached to the scene and unrotated. Its mesh is tilted only about z, by the truthy axial tilt. When the body has `addRings`, a ring with radii 1.2r and 2.2r is in its group. When its orbital radius is positive, a 128-segment guide circle is in the orbit group. That no other rings or guide circles exist is stated in aggregate by `BuilderCounts.BuildCounts`. |
| BuilderFacts.BuildMoonPlacement | celestialBodyUtils.js:104-157 | With unique root names, each moon's group hangs in the group of the root it names as parent, and never in the scene. The moon's mesh is unrotated. When its orbital radius is positive, its 64-segment guide circle is in that parent group. The converse is stated in aggregate by `BuilderCounts.BuildCounts`. |
| BuilderFacts.OrbitPointsOnCircle | celestialBodyUtils.js:82-89 | A guide circle has `segments + 1` points, all with y = 0 and at distance R from the centre. |
| BuilderFacts.OrbitPointsSweep | celestialBodyUtils.js:83 | The sample angles run from 0 to 2π and strictly increase. |
| BuilderCounts.BuildCounts | celestialBodyUtils.js:48-154 | The builder adds one guide circle per body with a positive orbital radius, moons included, and one ring per root with `addRings`. |
| SolarSystemScene.CatalogueLinkedMoons | celestialBodyUtils.js:119 | In the catalogue, the only linked moon is the Moon with parent "Earth". |
| SolarSystemScene.CatalogueCounts | data.js:13-324 | In the catalogue, 12 bodies have a positive orbital radius and 1 root has rings. |
| SolarSystemScene.SolarSystemWellFormed | celestialBodyUtils.js:13-170 | The catalogue's scene is a rigid tree whose bodies satisfy the body invariant. |
| SolarSystemScene.SolarSystemBodies | celestialBodyUtils.js:20-131 | There are 13 entries. The first 12 are the roots in order, each group attached to the scene at the origin. The 13th is the Moon, linked to Earth. |
| SolarSystemScene.SolarSystemMoonOrbitsEarth | celestialBodyUtils.js:122-125 | The Moon's group is a fresh group inside Earth's group. |
| SolarSystemScene.SolarSystemGuides | celestialBodyUtils.js:48-154 | The catalogue's scene has 12 guide circles and 1 ring. |
| Interaction.FirstColon | interaction.js:31 | Returns the position of the first ':' in a detail, or its length when there is none. |
| Interaction.LineEnd | interaction.js:31 | Returns the position of the first line terminator at or after a point, or the length. This is where `.*` stops. |
| Interaction.HighlightNoColon | interaction.js:31 | A detail without ':' is unchanged. |
| Interaction.HighlightIsRegexReplace | interaction.js:31 | A detail `p + ":" + q + t` becomes `p + ":<strong>" + q + "</strong>" + t`. Here `p` has no colon, `q` no line break, and `t` is empty or starts at one. |
| Interaction.JoinItemsAppend | interaction.js:28-33 | The markup of two detail lists back to back is the two markups back to back. |
| Interaction.JoinItemsItems | interaction.js:27-33 | The markup is empty for no details and is one `<li>` item per detail, in order. |
| Interaction.DescriptionText | interaction.js:25-26 | The description is the body's own text when present and non-empty, and "No description available." otherwise. It is never empty. |
| Interaction.DisplayInfoOfBody | interaction.js:23-33 | A body's panel has its name as title and a non-empty description. Without info it shows the fallback and no details. With info but no details list, or with an empty one, the details markup is empty. With a details list, the markup is that list's `<li>` items. |
| Interaction.CatalogueInfoComplete | data.js:13-324 | Every catalogue body has a non-empty description and a details list. |
| Interaction.InitialSelection | interaction.js:14-22 | At the start nothing is selected and the panel shows "Solar System", the default description and no details. |
| Interaction.RadiusOr1 | interaction.js:48 | `radius \|\| 1` is never 0. It is positive and at least the radius for every radius ≥ 0, and it is the radius itself whenever that is truthy. |
| Interaction.ZoomBoundsOrdered | interaction.js:48-53 | For every radius ≥ 0 the new zoom bounds satisfy 0 < minDistance < maxDistance. |
| Interaction.SelectSameIsNoOp | interaction.js:39 | Selecting the mesh already selected changes nothing: selection, data, panel and zoom bounds. |
| Interaction.SelectNew | interaction.js:39-53 | Selecting a new mesh records it and its data and shows its panel. It sets minDistance to `(radius\|\|1)*1.2` and maxDistance to `((radius\|\|1)*5+10)*6`. |
| Interaction.SelectIdempotent | interaction.js:37-57 | Selecting the same mesh twice is selecting it once. |
| Interaction.PickFirstHit | interaction.js:72-76 | A click with no hits changes nothing; a click with hits selects the nearest. |
| Interaction.NeverDeselected | interaction.js:59-77 | After any clicks, a body is selected exactly when one was before or some click hit something. The selection is always some body's mesh. |
| Interaction.InteractionState.constructor | interaction.js:86-97 | Setup starts with nothing selected and the default panel. |
| Interaction.InteractionState.SelectObject | interaction.js:37-57 | The new state is `Select` of the old one, and the camera target is untouched. |
| Interaction.InteractionState.OnPointerDown | interaction.js:63-77 | The new state is `Pick` of the old one, the target is untouched, and the selection stays a body's mesh. |
| Interaction.InteractionState.GetSelectedObject | interaction.js:104-106 | Returns the current selection, which is some body's mesh. |
| Animation.OrbitWrites | animation.js:26-30 | The orbit step keeps kind, parent, name, data, rotation and y. With R > 0 it sets x to `cos(a)*R` and z to `sin(a)*R`; with R ≤ 0 it leaves the group as it was. |
| Animation.OrbitFromOrigin | animation.js:26-30 | A group at the origin moves to its orbit point when R > 0 and stays at the origin otherwise. |
| Animation.OrbitOnCircle | animation.js:27-29 | The orbit step puts the group at distance R from the centre, in the x-z plane. |
| Animation.UpdateBodyEffect | animation.js:21-30 | One entry's step writes its mesh (spun) and its group (orbited) and no other node. |
| Animation.UpdateAllEffect | animation.js:20-31 | A frame spins every mesh once and orbits every group once. Every node that is no body's mesh or group is left as it was. |
| Animation.UpdateKeepsStructure | animation.js:20-31 | A frame keeps every node's kind, parent, name and data. |
| Animation.UpdateKeepsRigid | animation.js:20-31 | A frame keeps every parent unrotated. |
| Animation.UpdateKeepsInvariant | animation.js:20-31 | A frame keeps the scene tree, the body invariant and the structure. |
| Animation.PositionsIgnoreDelta | animation.js:27-29 | Positions after a frame do not depend on `delta`. |
| Animation.OrbitIdempotent | animation.js:27-29 | A second frame at the same elapsed time leaves every position unchanged. |
| Animation.TotalTurnIsTurnOverTotal | animation.js:22-23 | The per-frame turns add up to `rotationSpeed * Σdelta * multiplier`. |
| Animation.RunRotatesOne | animation.js:22-23 | Over any frames, a mesh turns by the sum of its per-frame turns and does not move. |
| Animation.RunRotates | animation.js:22-23 | Over any frames, every mesh turns by `rotationSpeed * multiplier * Σdelta`, however the time is split. |
| Animation.RunPositions | animation.js:26-30 | After any non-empty run of frames, every group is where the last frame's elapsed time puts it. |
| Animation.RunGroupsKeepOffAxis | animation.js:26-30 | Over any frames, no group's y changes, and a group with R ≤ 0 never changes. |
| Animation.GroupAfterFrame | animation.js:26-30 | After a frame, a group with y = 0 keeps its parent. It is at its orbit point when R > 0 and where it was otherwise, whatever earlier frames did to it. |
| Animation.RootAfterFrame | animation.js:34-41 | After a frame, a body whose group hangs in the scene at y = 0 is at its orbit point when R > 0, and at its group's earlier position otherwise. This holds on every frame, not only the first. |
| Animation.MoonAfterFrame | animation.js:34-41 | After a frame, a moon whose group hangs at y = 0 in its planet's group, itself in the scene at y = 0, is at the planet's point plus its own. Each point is the orbit point when R > 0 and the group's earlier position otherwise. |
| Animation.RunKeepsInvariant | animation.js:13-46 | Any sequence of frames keeps the scene tree, the body invariant and the structure of the store. |
| Animation.RootAfterRun | animation.js:13-46 | After any non-empty sequence of frames, a body whose group starts in the scene at y = 0 is at its orbit point for the last frame's elapsed time, or where its group started when R ≤ 0. |
| Animation.MoonAfterRun | animation.js:13-46 | After any non-empty sequence of frames, such a moon is at its planet's point plus its own, both for the last frame's elapsed time. |
| Animation.UpdateBodyInPlace | animation.js:21-30 | The callback's in-place writes equal one entry's step. |
| Animation.UpdateBodies | animation.js:20-31 | The `forEach` loop leaves the scene as the frame function gives it. |
| Animation.Animate | animation.js:13-46 | The scene after a frame is the frame function of the scene before, and the body invariant holds. The camera target is the selected mesh's new world position, or unchanged when nothing is selected. The zoom bounds are untouched. |
| SolarSystemMotion.RootBodiesOrbitTheCentre | animation.js:13-46 | In the catalogue's scene, after any number of frames, each root is at `(cos a * R, 0, sin a * R)` for the last frame's elapsed time. The Sun, with R = 0, stays at the origin, and before the first frame every root is there. |
| SolarSystemMotion.MoonFollowsEarth | animation.js:13-46 | In the catalogue's scene, after any non-empty sequence of frames, the Moon is at Earth's orbit point plus its own orbit point around Earth, both for the last frame's elapsed time. |

## Left out

- Geometry, materials, textures and ring UV painting belong to Three.js. So do the sphere segment counts and the ring's rotation flat. Only the radii and the kind of each node are kept.
- The starfield is not modelled, because it plays no part in the state anything reads.
- `console.log` calls are left out. DOM writes are modelled as the three strings of an info panel.
- Raycasting and the mapping of the click position to normalised device coordinates are left out. A click is given as the list of body indices it hit, nearest first.
- `requestAnimationFrame`, `THREE.Clock` and the resize handler are left out. One frame takes `delta` and `elapsed` as inputs, and a run of frames is a list of them.
- `renderer.render` and camera motion are left out.
- `controls.update()` damping is left out; only `target`, `minDistance` and `maxDistance` are modelled.
- Floating point is modelled as `real`, and the values of cos and sin are not fixed. `radius || 1` treats only 0 as falsy, because NaN is not modelled.
- The orbit guides are not shown to close into a loop, since that needs the value of cos and sin at 2π.
- Builder.CreateSolarSystem: `moonData.parent = parentData.name` mutates the catalogue record. The model writes the parent into the copy that `celestialBodies` and the mesh's `userData` hold, and leaves the constant catalogue unchanged.
- Builder.AddRootBody: the group is allocated just before the mesh, while the source creates the mesh first. The resulting tree and child order are the same, and every node then hangs under an older one.
- Interaction.InteractionState.SelectObject: requires the mesh to carry body data. Every mesh a click can hit is a body mesh, and the builder gives each one its data.
- The page's scene already holds an ambient light and a point light (sceneSetup.js:38-43) when `createSolarSystem` runs. The builder lemmas hold for any initial scene. The catalogue instances in `SolarSystemScene` and `SolarSystemMotion` start from an empty scene, since lights add no body nodes.
- sceneSetup.js and main.js are not part of this model beyond the empty scene, the lights above and the initial control values.
- BuildRootPlacement: states the ring and guide circle of each body that should have one. It does not state per body that a body without `addRings`, or with R ≤ 0, has none; only the totals in `BuilderCounts.BuildCounts` give that.
- BuildMoonPlacement: states a moon's guide circle when R > 0. That a moon with R ≤ 0 has none follows only from the totals in `BuilderCounts.BuildCounts`.
