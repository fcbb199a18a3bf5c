/** The tree the solar-system application builds at start-up, replayed without
    loading any asset: the mesh and the pixels are parameters, one of each
    standing for every file the application reads, and so is the camera's
    world matrix, which the application computes with floating point. The application's eight
    `create_planet` calls are grouped into two stages of four so that each
    proof stays small; the calls and their order are the application's. */
module SolarScene {
  import opened Types
  import opened Nodes
  import opened Scene
  import opened Camera
  import opened PointLight
  import opened Geometry

  /** The planet holders, in the order they hang under the root. */
  const InnerPlanetNames: seq<string> := ["holder_mercury", "holder_venus", "holder_earth", "holder_mars"]
  const OuterPlanetNames: seq<string> := ["holder_jupiter", "holder_saturn", "holder_uranus", "holder_neptune"]

  /** The names the start-up sequence hangs directly under the root, in order. */
  const RootChildNames: seq<string> := ["camera", "holder_sun"] + InnerPlanetNames + OuterPlanetNames

  /** In the root's list as the start-up sequence leaves it, the sun is
      found at position 1, the earth at position 4, and no direct child is
      called "holder_moon". */
  lemma RootChildLookups(kids: seq<Node>)
    requires Names(kids) == RootChildNames
    ensures FirstNamed(kids, "holder_sun") == 1
    ensures FirstNamed(kids, "holder_earth") == 4
    ensures forall c :: c in kids ==> c.name != "holder_moon"
  {
    RootChildNamesFacts();
    FoundAt(kids, 1, "holder_sun");
    FoundAt(kids, 4, "holder_earth");
  }

  /** The literal facts behind those lookups. */
  lemma RootChildNamesFacts()
    ensures |RootChildNames| == 10 && RootChildNames[4] == "holder_earth"
    ensures forall k :: 0 <= k < 4 ==> RootChildNames[k] != "holder_earth"
    ensures forall k :: 0 <= k < 10 ==> RootChildNames[k] != "holder_moon"
  {
    assert "holder_venus"[7] != "holder_earth"[7];
    assert "holder_mars"[8] != "holder_moon"[8];
  }

  /** The three groups the start-up sequence appends carry, together, the
      root's child names. */
  lemma RootChildNamesJoin(first: seq<Node>, inner: seq<Node>, outer: seq<Node>)
    requires Names(first) == ["camera", "holder_sun"]
    requires Names(inner) == InnerPlanetNames && Names(outer) == OuterPlanetNames
    ensures Names(first + inner + outer) == RootChildNames
  {
    NamesAppend(first + inner, outer);
    NamesAppend(first, inner);
  }

  /** `create_camera`: a camera, explicitly enabled and in perspective mode,
      appended under the root one path segment below it. Its world transform
      is then overwritten with `camWorld`, the matrix the application computes
      from the one `addChild` gave it. */
  method CreateCamera(root: Node, name: string, camWorld: Mat4) returns (cam: CameraNode)
    modifies root`children
    ensures root.children == old(root.children) + [cam.node] && fresh(cam.node)
    ensures cam.node.name == name && cam.node.parent == root && cam.node.children == []
    ensures cam.node.path == root.path + Separator + name && cam.node.depth == root.depth + 1
    ensures cam.GetEnabled() && cam.GetPerspective() && cam.node.worldTransform == camWorld
  {
    cam := new CameraNode(name);
    cam.SetEnabled(true);
    cam.SetPerspective(true);
    root.AddChild(cam.node);
    cam.node.SetWorldTransform(camWorld);
  }

  /** `create_sun`: a holder under the root carrying the sun's geometry and a
      point light of colour (0.5, 0.5, 0.5) and intensity 0.5, in that order.
      The holder is attached before its children, so their paths are full. */
  method CreateSun(root: Node, name: string, m: Model, color: Vec3, t: PixelData)
    returns (holder: Node, light: PointLightNode)
    modifies root`children
    ensures root.children == old(root.children) + [holder] && fresh(holder)
    ensures holder.name == name && holder.parent == root
    ensures holder.path == root.path + Separator + name && holder.depth == root.depth + 1
    ensures Names(holder.children) == ["sun_geometry", "point_light"]
    ensures forall c :: c in holder.children ==>
      c.parent == holder && c.path == holder.path + Separator + c.name &&
      c.depth == holder.depth + 1 && c.children == []
    ensures light.node == holder.children[1]
    ensures light.lightColour == Some(Vec3(0.5, 0.5, 0.5)) && light.lightIntensity == Some(0.5)
  {
    holder := new Node(name);
    var geometry := new GeometryNode("sun_geometry", m, color, t);
    light := new PointLightNode("point_light");
    light.SetLightColour(Vec3(0.5, 0.5, 0.5));
    light.SetLightIntensity(0.5);
    root.AddChild(holder);
    holder.AddChild(geometry.node);
    holder.AddChild(light.node);
  }

  /** `create_planet`: a holder under the root carrying one geometry node
      named "geometry_" + the holder's name, attached after the holder. */
  method CreatePlanet(root: Node, name: string, m: Model, color: Vec3, t: PixelData)
    returns (holder: Node)
    modifies root`children
    ensures root.children == old(root.children) + [holder] && fresh(holder)
    ensures holder.name == name && holder.parent == root
    ensures holder.path == root.path + Separator + name && holder.depth == root.depth + 1
    ensures Names(holder.children) == ["geometry_" + name]
    ensures holder.children[0].parent == holder && holder.children[0].children == []
    ensures holder.children[0].path == holder.path + Separator + "geometry_" + name
  {
    holder := new Node(name);
    root.AddChild(holder);
    var geometry := new GeometryNode("geometry_" + name, m, color, t);
    holder.AddChild(geometry.node);
  }

  /** Mercury, Venus, Earth and Mars, in that order. */
  method CreateInnerPlanets(root: Node, m: Model, t: PixelData) returns (added: seq<Node>)
    modifies root`children
    ensures root.children == old(root.children) + added
    ensures Names(added) == InnerPlanetNames
    ensures forall p :: p in added ==>
      fresh(p) && p.parent == root &&
      p.path == root.path + Separator + p.name && p.depth == root.depth + 1 &&
      Names(p.children) == ["geometry_" + p.name]
  {
    var mercury := CreatePlanet(root, "holder_mercury", m, Vec3(1.0, 1.0, 0.3), t);
    var venus := CreatePlanet(root, "holder_venus", m, Vec3(0.8, 0.1, 0.4), t);
    var earth := CreatePlanet(root, "holder_earth", m, Vec3(0.1, 1.0, 0.8), t);
    var mars := CreatePlanet(root, "holder_mars", m, Vec3(0.8, 0.2, 0.7), t);
    added := [mercury, venus, earth, mars];
  }

  /** Jupiter, Saturn, Uranus and Neptune, in that order. */
  method CreateOuterPlanets(root: Node, m: Model, t: PixelData) returns (added: seq<Node>)
    modifies root`children
    ensures root.children == old(root.children) + added
    ensures Names(added) == OuterPlanetNames
    ensures forall p :: p in added ==>
      fresh(p) && p.parent == root &&
      p.path == root.path + Separator + p.name && p.depth == root.depth + 1 &&
      Names(p.children) == ["geometry_" + p.name]
  {
    var jupiter := CreatePlanet(root, "holder_jupiter", m, Vec3(0.8, 1.0, 0.1), t);
    var saturn := CreatePlanet(root, "holder_saturn", m, Vec3(0.8, 0.4, 0.6), t);
    var uranus := CreatePlanet(root, "holder_uranus", m, Vec3(0.6, 0.7, 0.2), t);
    var neptune := CreatePlanet(root, "holder_neptune", m, Vec3(0.3, 0.3, 0.7), t);
    added := [jupiter, saturn, uranus, neptune];
  }

  /** `create_moon_for_planet`: looks the planet up among the root's direct
      children and, only when it is found, hangs a moon holder (with its
      geometry) under it; the new holder is passed back. A missing planet
      leaves every node as it was. */
  method CreateMoonForPlanet(root: Node, planetName: string, moonName: string,
                             m: Model, color: Vec3, t: PixelData)
    returns (moon: Node?)
    modifies (if root.GetChild(planetName) != null then {root.GetChild(planetName)} else {})`children
    ensures old(root.GetChild(planetName)) == null ==> moon == null
    ensures old(root.GetChild(planetName)) != null ==>
      var planet := old(root.GetChild(planetName));
      moon != null && fresh(moon) &&
      planet.children == old(planet.children) + [moon] &&
      moon.name == moonName && moon.parent == planet &&
      moon.path == planet.path + Separator + moonName && moon.depth == planet.depth + 1 &&
      Names(moon.children) == ["geometry_" + moonName] &&
      moon.children[0].parent == moon && moon.children[0].children == [] &&
      moon.children[0].path == moon.path + Separator + "geometry_" + moonName
  {
    var planet := root.GetChild(planetName);
    moon := null;
    if planet != null {
      moon := new Node(moonName);
      planet.AddChild(moon);
      var geometry := new GeometryNode("geometry_" + moonName, m, color, t);
      moon.AddChild(geometry.node);
    }
  }

  /** The part of `initialize_scene_graph` before the moon, on a fresh root:
      the camera, the sun and the eight planets, in that order. */
  method CreateBodies(root: Node, m: Model, t: PixelData, camWorld: Mat4)
    requires root.children == []
    modifies root`children
    ensures Names(root.children) == RootChildNames
    ensures forall c :: c in root.children ==>
      fresh(c) && c.parent == root && c.path == root.path + Separator + c.name &&
      c.depth == root.depth + 1
    ensures root.GetChild("holder_sun") != null
    ensures Names(root.GetChild("holder_sun").children) == ["sun_geometry", "point_light"]
    ensures root.GetChild("holder_sun").GetChild("point_light") != null
    ensures root.GetChild("holder_earth") != null
    ensures Names(root.GetChild("holder_earth").children) == ["geometry_" + "holder_earth"]
    ensures root.GetChild("holder_moon") == null
  {
    var camera := CreateCamera(root, "camera", camWorld);
    var sun, light := CreateSun(root, "holder_sun", m, Vec3(1.0, 1.0, 1.0), t);
    ghost var first := [camera.node, sun];
    assert root.children == first;
    ghost var sunKids := sun.children;
    var inner := CreateInnerPlanets(root, m, t);
    var earth := inner[2];
    assert earth in inner && earth.name == InnerPlanetNames[2];
    ghost var earthKids := earth.children;
    assert Names(earthKids) == ["geometry_" + "holder_earth"];
    var outer := CreateOuterPlanets(root, m, t);
    assert earth.children == earthKids;
    assert root.children == first + inner + outer;
    RootChildNamesJoin(first, inner, outer);
    RootChildLookups(root.children);
    assert root.children[1] == sun && sun.children == sunKids;
    FoundAt(sun.children, 1, "point_light");
    assert root.children[4] == earth;
  }

  /** The last call of `initialize_scene_graph`: the moon goes under the
      earth, which the root finds by name. Every other node keeps its links. */
  method AttachMoon(root: Node, m: Model, t: PixelData) returns (moon: Node)
    requires root.name == "root" && root.path == Separator + "root" && root.depth == 0
    requires Names(root.children) == RootChildNames
    requires forall c :: c in root.children ==>
      c.parent == root && c.path == root.path + Separator + c.name && c.depth == 1
    requires root.GetChild("holder_sun") != null
    requires Names(root.GetChild("holder_sun").children) == ["sun_geometry", "point_light"]
    requires root.GetChild("holder_sun").GetChild("point_light") != null
    requires root.GetChild("holder_earth") != null
    requires Names(root.GetChild("holder_earth").children) == ["geometry_" + "holder_earth"]
    modifies root.GetChild("holder_earth")`children
    ensures Names(root.children) == RootChildNames
    ensures forall c :: c in root.children ==>
      c.parent == root && c.path == root.path + Separator + c.name && c.depth == 1
    ensures var sun := root.GetChild("holder_sun");
      sun != null && Names(sun.children) == ["sun_geometry", "point_light"] &&
      sun.GetChild("point_light") != null
    ensures var earth := root.GetChild("holder_earth");
      earth != null && Names(earth.children) == ["geometry_" + "holder_earth", "holder_moon"] &&
      earth.GetChild("holder_moon") == moon
    ensures moon.depth == 2 && Names(moon.children) == ["geometry_" + "holder_moon"]
    ensures moon.path == Separator + "root" + Separator + "holder_earth" + Separator + "holder_moon"
    ensures root.GetChild("holder_moon") == null
  {
    var earth := root.GetChild("holder_earth");
    var sun := root.GetChild("holder_sun");
    assert sun.name != earth.name && root.name != earth.name;
    ghost var rootKids, sunKids, earthKids := root.children, sun.children, earth.children;
    var found := CreateMoonForPlanet(root, "holder_earth", "holder_moon", m, Vec3(0.3, 0.3, 0.8), t);
    moon := found;
    assert root.children == rootKids && sun.children == sunKids;
    assert earth.children == earthKids + [moon];
    FoundAt(earth.children, 1, "holder_moon");
    assert Names(moon.children) == ["geometry_" + "holder_moon"];
    RootChildLookups(root.children);
  }

  /** `initialize_scene_graph`: the root "root", the camera, the sun, the
      eight planets in order and the moon under the earth. The root's children
      sit one path segment below it; the sun is found by name and holds the
      point light; the earth is found by name and carries its geometry and
      then the moon; the moon is not a direct child of the root, so a lookup
      from the root misses it. */
  method BuildSolarSystem(m: Model, t: PixelData, camWorld: Mat4)
    returns (graph: SceneGraph, root: Node)
    ensures graph.GetName() == "scene_graph_1"
    ensures graph.GetRoot() == root && graph.PrintGraph() == "root"
    ensures root.parent == null && root.path == Separator + "root" && root.depth == 0
    ensures Names(root.children) == RootChildNames
    ensures forall c :: c in root.children ==>
      c.parent == root && c.path == root.path + Separator + c.name && c.depth == 1
    ensures var sun := root.GetChild("holder_sun");
      sun != null && Names(sun.children) == ["sun_geometry", "point_light"] &&
      sun.GetChild("point_light") != null
    ensures var earth := root.GetChild("holder_earth");
      earth != null && Names(earth.children) == ["geometry_" + "holder_earth", "holder_moon"]
    ensures var moon := root.GetChild("holder_earth").GetChild("holder_moon");
      moon != null && moon.depth == 2 && Names(moon.children) == ["geometry_" + "holder_moon"] &&
      moon.path == Separator + "root" + Separator + "holder_earth" + Separator + "holder_moon"
    ensures root.GetChild("holder_moon") == null
  {
    graph := new SceneGraph();
    root := new Node("root");
    graph.SetRoot(root);
    graph.SetName("scene_graph_1");
    CreateBodies(root, m, t, camWorld);
    var moon := AttachMoon(root, m, t);
  }
}
