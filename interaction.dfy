/**
 * The selection logic and info panel of interaction.js. The selection is the
 * picked body's mesh (or nothing); it changes only when a different mesh is
 * picked, and a click that hits nothing changes nothing, so once a body is
 * selected something stays selected. Each new selection rewrites the info
 * panel and the zoom bounds of the camera controls, but not their target,
 * which the animation loop moves.
 */
module Interaction {
  import opened Wrappers
  import opened Registry
  import opened Scene

  /** The three fields of the info panel: title text, description text, details markup. */
  datatype InfoPanel = InfoPanel(title: string, description: string, details: string)

  const DefaultTitle: string := "Solar System"
  const DefaultDescription: string := "Interactive 3D model. Click a celestial body to learn more."
  const MissingDescription: string := "No description available."

  /** The characters JavaScript's `.` does not match. */
  predicate IsLineTerminator(c: char)
  {
    c == '\n' || c == '\r' || c == '\U{2028}' || c == '\U{2029}'
  }

  /** The index of the first ':' in `s`, or `|s|` when there is none. */
  function FirstColon(s: string): (i: nat)
    ensures i <= |s|
    ensures i < |s| ==> s[i] == ':'
    ensures forall k :: 0 <= k < i ==> s[k] != ':'
  {
    if s == [] then 0 else if s[0] == ':' then 0 else 1 + FirstColon(s[1..])
  }

  /** The index of the first line terminator in `s` at or after `from`, or `|s|` when there is none. */
  function LineEnd(s: string, from: nat): (e: nat)
    requires from <= |s|
    ensures from <= e <= |s|
    ensures e < |s| ==> IsLineTerminator(s[e])
    ensures forall k :: from <= k < e ==> !IsLineTerminator(s[k])
    decreases |s| - from
  {
    if from == |s| then from else if IsLineTerminator(s[from]) then from else LineEnd(s, from + 1)
  }

  /**
   * `detail.replace(/:(.*)/, ":<strong>$1</strong>")`: the first ':' and the
   * rest of its line are replaced by ':' and that rest wrapped in `<strong>`.
   */
  function Highlight(s: string): string
  {
    var c := FirstColon(s);
    if c == |s| then s
    else
      var e := LineEnd(s, c + 1);
      s[..c] + ":<strong>" + s[c + 1..e] + "</strong>" + s[e..]
  }

  /** One list item of the details markup. */
  function DetailItem(detail: string): string
  {
    "<li>" + Highlight(detail) + "</li>"
  }

  /** `details.map(...).join("")`. */
  function JoinItems(details: seq<string>): string
    decreases |details|
  {
    if details == [] then "" else JoinItems(details[..|details| - 1]) + DetailItem(details[|details| - 1])
  }

  /** `data.info?.details?.map(...).join("") || ""`: no details give the empty markup. */
  function DetailsHtml(info: Option<Info>): string
  {
    if info.Some? && info.value.details.Some? then JoinItems(info.value.details.value) else ""
  }

  /** `data.info?.description || "No description available."`: a missing or empty description falls back. */
  function DescriptionText(info: Option<Info>): (text: string)
    ensures text != ""
    ensures info.Some? && info.value.description.Some? && info.value.description.value != "" ==>
      text == info.value.description.value
    ensures !(info.Some? && info.value.description.Some? && info.value.description.value != "") ==>
      text == MissingDescription
  {
    if info.Some? && info.value.description.Some? && info.value.description.value != ""
    then info.value.description.value
    else MissingDescription
  }

  /** `displayInfo(data)`: the default panel without a body, else the body's name, description and details. */
  function DisplayInfo(data: Option<BodySpec>): InfoPanel
  {
    if data.None? then InfoPanel(DefaultTitle, DefaultDescription, "")
    else InfoPanel(data.value.name, DescriptionText(data.value.info), DetailsHtml(data.value.info))
  }

  /**
   * `radius || 1`: a truthy radius is kept and a zero radius counts as 1, so
   * the zoom bounds never collapse to 0 and stay positive for real radii.
   */
  function RadiusOr1(radius: real): (r: real)
    ensures r != 0.0
    ensures radius >= 0.0 ==> r > 0.0 && r >= radius
    ensures radius != 0.0 ==> r == radius
    ensures radius == 0.0 ==> r == 1.0
  {
    if radius == 0.0 then 1.0 else radius
  }

  /** The closest zoom a selected body allows: `(radius || 1) * 1.2`. */
  function MinDistanceFor(radius: real): real
  {
    RadiusOr1(radius) * 1.2
  }

  /** The farthest zoom a selected body allows: `((radius || 1) * 5 + 10) * 6`. */
  function MaxDistanceFor(radius: real): real
  {
    (RadiusOr1(radius) * 5.0 + 10.0) * 6.0
  }

  /** The state `selectObject` and `onPointerDown` read and write. */
  datatype Selection = Selection(
    selected: Option<nat>,
    selectedData: Option<BodySpec>,
    panel: InfoPanel,
    minDistance: real,
    maxDistance: real)

  /** `selectObject(mesh)`, the mesh carrying `data`: nothing happens unless the mesh is new. */
  function Select(s: Selection, mesh: nat, data: BodySpec): Selection
  {
    if s.selected == Some(mesh) then s
    else Selection(Some(mesh), Some(data), DisplayInfo(Some(data)), MinDistanceFor(data.radius), MaxDistanceFor(data.radius))
  }

  /** `onPointerDown` after the raycast: `hits` are indices into `bodies`, nearest first. */
  function Pick(s: Selection, hits: seq<nat>, bodies: seq<CelestialBody>): Selection
    requires forall k :: 0 <= k < |hits| ==> hits[k] < |bodies|
  {
    if hits == [] then s else Select(s, bodies[hits[0]].mesh, bodies[hits[0]].data)
  }

  /** A sequence of clicks, each given by its hits. */
  function Clicks(s: Selection, clicks: seq<seq<nat>>, bodies: seq<CelestialBody>): Selection
    requires forall c, k :: 0 <= c < |clicks| && 0 <= k < |clicks[c]| ==> clicks[c][k] < |bodies|
    decreases |clicks|
  {
    if clicks == [] then s
    else Pick(Clicks(s, clicks[..|clicks| - 1], bodies), clicks[|clicks| - 1], bodies)
  }

  /** The selection as the page starts: nothing selected, the default panel and the initial zoom bounds. */
  function InitialSelection(): (s: Selection)
    ensures s.selected == None && s.selectedData == None
    ensures s.panel == InfoPanel("Solar System", "Interactive 3D model. Click a celestial body to learn more.", "")
  {
    Selection(None, None, DisplayInfo(None), 1.0, 1500.0)
  }

  // ---------------------------------------------------------------------------
  // Properties of the info panel.

  /** A detail without a colon is left as it is. */
  lemma HighlightNoColon(s: string)
    requires forall k :: 0 <= k < |s| ==> s[k] != ':'
    ensures Highlight(s) == s
  {
    assert FirstColon(s) == |s|;
  }

  /**
   * The regular-expression replacement in full: for a detail made of a
   * colon-free prefix `p`, the first ':', the rest `q` of that line and the
   * remainder `t` (empty or starting at a line break), the markup keeps `p`,
   * the colon and `t` and wraps `q` in `<strong>`.
   */
  lemma HighlightIsRegexReplace(p: string, q: string, t: string)
    requires forall k :: 0 <= k < |p| ==> p[k] != ':'
    requires forall k :: 0 <= k < |q| ==> !IsLineTerminator(q[k])
    requires t == [] || IsLineTerminator(t[0])
    ensures Highlight(p + ":" + q + t) == p + ":<strong>" + q + "</strong>" + t
  {
    var s := p + ":" + q + t;
    var c := FirstColon(s);
    assert forall k :: 0 <= k < |p| ==> s[k] == p[k];
    assert s[|p|] == ':';
    assert c == |p|;
    var e := LineEnd(s, c + 1);
    assert forall k :: 0 <= k < |q| ==> s[|p| + 1 + k] == q[k];
    assert |p| + 1 + |q| < |s| ==> s[|p| + 1 + |q|] == t[0];
    assert e == |p| + 1 + |q|;
    assert s[..c] == p;
    assert s[c + 1..e] == q;
    assert s[e..] == t;
  }

  /** Regrouping a concatenation, kept apart so the step below is checked in a small context. */
  lemma SeqAppendAssoc(x: string, y: string, z: string)
    ensures (x + y) + z == x + (y + z)
  {
  }

  /** The details markup of two lists back to back is their markups back to back. */
  lemma {:induction false} JoinItemsAppend(a: seq<string>, b: seq<string>)
    ensures JoinItems(a + b) == JoinItems(a) + JoinItems(b)
    decreases |b|
  {
    if b == [] {
      assert a + b == a;
    } else {
      var b' := b[..|b| - 1];
      assert (a + b)[..|a + b| - 1] == a + b';
      assert (a + b)[|a + b| - 1] == b[|b| - 1];
      JoinItemsAppend(a, b');
      var x := DetailItem(b[|b| - 1]);
      assert JoinItems(a + b) == JoinItems(a + b') + x;
      assert JoinItems(b) == JoinItems(b') + x;
      SeqAppendAssoc(JoinItems(a), JoinItems(b'), x);
    }
  }

  /** The details markup is one `<li>` item per detail, in order. */
  lemma JoinItemsItems(details: seq<string>, d: string)
    ensures JoinItems([]) == ""
    ensures JoinItems([d]) == "<li>" + Highlight(d) + "</li>"
    ensures JoinItems(details + [d]) == JoinItems(details) + "<li>" + Highlight(d) + "</li>"
  {
    assert [d][..0] == [];
    assert (details + [d])[..|details|] == details;
  }

  /** The panel of a body shows its name, its text or the fallback, and its details markup. */
  lemma DisplayInfoOfBody(d: BodySpec)
    ensures DisplayInfo(Some(d)).title == d.name
    ensures DisplayInfo(Some(d)).description != ""
    ensures d.info.None? ==>
      DisplayInfo(Some(d)) == InfoPanel(d.name, "No description available.", "")
    ensures d.info.Some? && d.info.value.details == Some([]) ==> DisplayInfo(Some(d)).details == ""
    ensures d.info.Some? && d.info.value.details.None? ==> DisplayInfo(Some(d)).details == ""
    ensures d.info.Some? && d.info.value.details.Some? ==>
      DisplayInfo(Some(d)).details == JoinItems(d.info.value.details.value)
  {
  }

  /** Every catalogue body has a description and details, so its panel uses its own text. */
  lemma CatalogueInfoComplete()
    ensures forall i :: 0 <= i < |AllBodies(SolarSystemData)| ==>
      AllBodies(SolarSystemData)[i].info.Some? &&
      AllBodies(SolarSystemData)[i].info.value.description.Some? &&
      AllBodies(SolarSystemData)[i].info.value.description.value != "" &&
      AllBodies(SolarSystemData)[i].info.value.details.Some?
  {
    CatalogueMoons();
    var all := SolarSystemData + [Moon];
    assert forall i :: 0 <= i < |all| ==>
      all[i].info.Some? && all[i].info.value.description.Some? &&
      all[i].info.value.description.value != "" && all[i].info.value.details.Some?;
  }

  // ---------------------------------------------------------------------------
  // Properties of the selection.

  /** Any body with a non-negative radius gets positive zoom bounds, the closest below the farthest. */
  lemma ZoomBoundsOrdered(radius: real)
    requires radius >= 0.0
    ensures 0.0 < MinDistanceFor(radius) < MaxDistanceFor(radius)
  {
  }

  /** Picking the mesh already selected changes nothing: selection, panel and zoom bounds. */
  lemma SelectSameIsNoOp(s: Selection, mesh: nat, data: BodySpec)
    requires s.selected == Some(mesh)
    ensures Select(s, mesh, data) == s
  {
  }

  /** Picking a new mesh selects it with its data, shows its panel and sets its zoom bounds. */
  lemma SelectNew(s: Selection, mesh: nat, data: BodySpec)
    requires s.selected != Some(mesh)
    ensures var s' := Select(s, mesh, data);
      && s'.selected == Some(mesh)
      && s'.selectedData == Some(data)
      && s'.panel == DisplayInfo(Some(data))
      && s'.minDistance == RadiusOr1(data.radius) * 1.2
      && s'.maxDistance == (RadiusOr1(data.radius) * 5.0 + 10.0) * 6.0
      && (data.radius >= 0.0 ==> s'.minDistance < s'.maxDistance)
  {
    if data.radius >= 0.0 {
      ZoomBoundsOrdered(data.radius);
    }
  }

  /** Picking the same mesh twice is the same as picking it once. */
  lemma SelectIdempotent(s: Selection, mesh: nat, data: BodySpec)
    ensures Select(Select(s, mesh, data), mesh, data) == Select(s, mesh, data)
  {
  }

  /** A click on empty space changes nothing; a click with hits picks the nearest. */
  lemma PickFirstHit(s: Selection, hits: seq<nat>, bodies: seq<CelestialBody>)
    requires forall k :: 0 <= k < |hits| ==> hits[k] < |bodies|
    ensures hits == [] ==> Pick(s, hits, bodies) == s
    ensures hits != [] ==> Pick(s, hits, bodies) == Select(s, bodies[hits[0]].mesh, bodies[hits[0]].data)
  {
  }

  /**
   * There is no deselection: after any clicks, something is selected exactly
   * when something was selected before or some click hit a body, and a
   * selection is always the mesh of a body.
   */
  lemma {:induction false} NeverDeselected(s: Selection, clicks: seq<seq<nat>>, bodies: seq<CelestialBody>)
    requires forall c, k :: 0 <= c < |clicks| && 0 <= k < |clicks[c]| ==> clicks[c][k] < |bodies|
    requires s.selected.Some? ==> exists b :: 0 <= b < |bodies| && s.selected == Some(bodies[b].mesh)
    ensures var s' := Clicks(s, clicks, bodies);
      && (s'.selected.Some? <==> s.selected.Some? || exists c :: 0 <= c < |clicks| && clicks[c] != [])
      && (s'.selected.Some? ==> exists b :: 0 <= b < |bodies| && s'.selected == Some(bodies[b].mesh))
    decreases |clicks|
  {
    if clicks != [] {
      var front := clicks[..|clicks| - 1];
      var last := clicks[|clicks| - 1];
      NeverDeselected(s, front, bodies);
      var mid := Clicks(s, front, bodies);
      var s' := Clicks(s, clicks, bodies);
      assert s' == Pick(mid, last, bodies);
      if last != [] {
        assert clicks[|clicks| - 1] != [];
        var h := last[0];
        assert s'.selected == Some(bodies[h].mesh) || s' == mid;
      }
      if exists c :: 0 <= c < |front| && front[c] != [] {
        var c :| 0 <= c < |front| && front[c] != [];
        assert clicks[c] == front[c];
      }
      if exists c :: 0 <= c < |clicks| && clicks[c] != [] {
        var c :| 0 <= c < |clicks| && clicks[c] != [];
        if c < |front| {
          assert front[c] == clicks[c];
        }
      }
    }
  }

  /**
   * The page's selection state: module-level `selectedObject` and
   * `selectedObjectData`, the info panel, and the shared camera controls.
   */
  class InteractionState {
    const graph: SceneGraph
    const controls: OrbitControls
    const bodies: seq<CelestialBody>
    var selectedObject: Option<nat>
    var selectedObjectData: Option<BodySpec>
    var panel: InfoPanel

    /** The selection state as the pure model sees it. */
    function State(): Selection
      reads this, controls
    {
      Selection(selectedObject, selectedObjectData, panel, controls.minDistance, controls.maxDistance)
    }

    /** A selection, when there is one, is the mesh of one of the bodies. */
    ghost predicate Valid()
      reads this
    {
      selectedObject.Some? ==> exists b :: 0 <= b < |bodies| && selectedObject == Some(bodies[b].mesh)
    }

    /** `setupInteraction`: nothing selected and the default panel shown. */
    constructor (graph: SceneGraph, controls: OrbitControls, bodies: seq<CelestialBody>)
      ensures this.graph == graph && this.controls == controls && this.bodies == bodies
      ensures selectedObject == None && selectedObjectData == None && panel == DisplayInfo(None)
      ensures Valid()
    {
      this.graph := graph;
      this.controls := controls;
      this.bodies := bodies;
      selectedObject := None;
      selectedObjectData := None;
      panel := DisplayInfo(None);
    }

    /** `selectObject(objectMesh)`: a new mesh is selected with its `userData`; the target is not touched. */
    method SelectObject(objectMesh: nat)
      requires objectMesh < |graph.nodes| && graph.nodes[objectMesh].userData.Some?
      modifies this, controls
      ensures State() == Select(old(State()), objectMesh, graph.nodes[objectMesh].userData.value)
      ensures controls.target == old(controls.target)
    {
      if selectedObject != Some(objectMesh) {
        selectedObject := Some(objectMesh);
        selectedObjectData := graph.nodes[objectMesh].userData;
        var data := selectedObjectData.value;
        panel := DisplayInfo(selectedObjectData);
        var offsetDistance := RadiusOr1(data.radius) * 5.0 + 10.0;
        controls.maxDistance := offsetDistance * 6.0;
        controls.minDistance := RadiusOr1(data.radius) * 1.2;
      }
    }

    /** `onPointerDown`, given the bodies the ray hit, nearest first. */
    method OnPointerDown(hits: seq<nat>)
      requires forall k :: 0 <= k < |hits| ==> hits[k] < |bodies|
      requires Valid() && BodiesOk(graph.nodes, bodies)
      modifies this, controls
      ensures State() == Pick(old(State()), hits, bodies)
      ensures controls.target == old(controls.target)
      ensures Valid()
    {
      if |hits| > 0 {
        var mesh := bodies[hits[0]].mesh;
        SelectObject(mesh);
      }
    }

    /** `getSelectedObject`: the selected mesh, always one of the bodies' meshes. */
    method GetSelectedObject() returns (mesh: Option<nat>)
      requires Valid()
      ensures mesh == selectedObject
      ensures mesh.Some? ==> exists b :: 0 <= b < |bodies| && mesh == Some(bodies[b].mesh)
    {
      mesh := selectedObject;
    }
  }
}
