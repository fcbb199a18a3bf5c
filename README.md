# Scene-graph core of the solar-system renderer, in Dafny

This project models the scene graph of an OpenGL solar-system application.
`Node` is a mutable tree element with the following state:

- a non-owning parent pointer;
- an ordered list of child pointers;
- a name;
- a backslash-joined path;
- a depth;
- a local and a world transform;
- a colour.

The model has these parts:

- `SceneGraph` owns a root pointer and a display name.
- `CameraNode`, `PointLightNode` and `GeometryNode` each add attributes with setters to a node.
- A scenario replays how the application populates the tree at start-up: the root, a camera, the sun holder with its geometry and point light, eight planet holders (each with a `geometry_` child), and a moon under the earth. It then proves the lookups the application relies on.

Every source class becomes a Dafny class whose methods change its fields in place:

| Module | File | Contents |
|---|---|---|
| `Nodes` | `node.dfy` | The node class. Also the specification functions `RemoveAll` (what `std::list::remove` leaves) and `FirstNamed` (the linear search behind `getChild`), with lemmas about them. |
| `Scene` | `scene_graph.dfy` | The owner object. |
| `Camera` | `camera_node.dfy` | The camera node. |
| `PointLight` | `point_light_node.dfy` | The point-light node. |
| `Geometry` | `geometry_node.dfy` | The geometry node. |
| `Types` | `types.dfy` | Opaque value types: matrices, vectors, mesh, pixels and the GL texture record. |
| `SolarScene` | `solar_scene.dfy` | The start-up scenario. |

Each typed node holds its `Node` as a `const node` field. That field is the object that goes into the tree. A Dafny class cannot inherit from another class, so composition stands in for inheritance.

The model follows the code as written. In these places the code behaves unlike a conventional scene graph:

- **Path separator.** Paths are joined with a single backslash, not `/`. The separator sits at the front of each segment: a node's own path starts as `"\" + name`, and `addChild` prefixes the parent's path to it.
- **Duplicate entries.** `addChild` has no duplicate check and no check that the node is detached. Adding a pointer twice yields two entries.
- **`setParent`.** It ignores its argument and re-adds the node to its *current* parent.
- **`removeChild`.**
  - It dereferences the lookup result without a null check, so a missing name is a precondition, not a "not found" result.
  - Through `setParent`, the removed node keeps its parent pointer.
  - Its depth and path are recomputed under its current parent. That parent is the remover only when the child was last added there; a different parent also gains a second copy of it in its own list.
  - `std::list::remove` then drops every copy of it. If the removed node's parent is the remover itself, that includes the copy `setParent` just appended.
- **Teardown.** Because of the above, tearing down a node that was removed earlier (with sibling names unique) looks itself up in the old parent, misses, and dereferences null. `RemovedChildCannotBeTornDown` states this.
- **`printGraph`.** It returns only the root's name. The traversal that would list children is commented out.
- **Light attributes.** The light's colour and intensity are left uninitialised by its constructors, and so is the node colour `color_`. They are `Option` values that start as `None`, and each getter requires `Some`.

## Model

| member | source | states |
|---|---|---|
| Nodes.RemoveAll | framework/source/Node.cpp:158 | The result no longer contains `x`. Every other element keeps its count (a multiset equality) and the order of the rest is kept (subsequence). |
| Nodes.RemoveAllAppendSame | framework/source/Node.cpp:155-158 | Removing `x` after one more copy of it was appended gives the same list as removing it from the original. This is why `removeChild` through its own `setParent` still ends with `x` gone. |
| Nodes.FirstNamed | framework/source/Node.cpp:61-72 | The index found is the first entry carrying the name: no earlier entry carries it, and the index equals the length when no entry does. |
| Nodes.FirstNamedAppend | framework/source/Node.cpp:138-140 | After an append, a lookup still finds an earlier match. It finds the appended node only when no earlier node carries the name. Otherwise the lookup misses. |
| Nodes.Node.constructor | framework/source/Node.cpp:6-11 | A fresh node has the given name, path `"\" + name`, depth 0, no parent, no children and identity transforms. |
| Nodes.Node.Default | framework/source/Node.cpp:16-20 | The same initial state as the named constructor, with the name `"name"`. |
| Nodes.Node.GetChild | framework/source/Node.cpp:61-72 | The result is null exactly when no direct child has the name. Otherwise it is a direct child with that name, and no earlier child in list order has the name. Grandchildren are never consulted and nothing is written. |
| Nodes.Node.GetParent | framework/source/Node.cpp:47-49 | Returns the stored parent pointer, and writes nothing. |
| Nodes.Node.GetChildrenList | framework/source/Node.cpp:77-79 | Returns the child list itself, in insertion order, duplicates included. |
| Nodes.Node.GetName | framework/source/Node.cpp:84-86 | Returns the name, which no operation ever changes. |
| Nodes.Node.GetPath | framework/source/Node.cpp:90-92 | Returns the stored path. |
| Nodes.Node.GetDepth | framework/source/Node.cpp:97-99 | Returns the stored depth. |
| Nodes.Node.GetLocalTransform | framework/source/Node.cpp:104-106 | Returns the stored local transform. |
| Nodes.Node.GetColor | framework/source/Node.cpp:108-110 | Returns the node colour, and requires it to have been set. |
| Nodes.Node.GetWorldTransform | framework/source/Node.cpp:126-128 | Returns the stored world transform. |
| Nodes.Node.Victim | framework/source/Node.cpp:28 | The node the destructor's `parent_->removeChild(name_)` looks up: the parent's first child with this node's name, or null without a parent. |
| Nodes.Node.SetLocalTransform | framework/source/Node.cpp:119-121 | The local transform reads back as the value written. No other field changes. |
| Nodes.Node.SetWorldTransform | framework/source/Node.cpp:132-134 | The world transform reads back as the value written. No other node changes, so nothing reaches the children. |
| Nodes.Node.SetColor | framework/source/Node.cpp:112-114 | The colour becomes set and reads back as the value written. |
| Nodes.Node.AddChild | framework/source/Node.cpp:138-147 | The child list becomes the old list plus the node at the end, with no duplicate check. The node's parent, depth, path and world transform become this node, depth + 1, this path + its old path, and this local transform. Nothing else changes, including the node's own children. |
| Nodes.Node.SetParent | framework/source/Node.cpp:54-56 | The argument is ignored. The node is appended once more to its current parent and gets the depth, path and world transform that `addChild` gives. |
| Nodes.Node.RemoveChild | framework/source/Node.cpp:152-161 | Requires a child with the name whose parent is set. Every copy of that child leaves the list, and the others keep their order. It returns the child with its parent pointer unchanged, its depth one below that parent, and its path the parent's path + `"\" + name`. |
| Nodes.Node.OrphanChildren | framework/source/Node.cpp:33-41 | Every former child's parent pointer is null and the list is empty. The children's own state is otherwise untouched. |
| Nodes.Node.Teardown | framework/source/Node.cpp:24-42 | Requires that the parent's lookup by this name does not dereference null. Afterwards the parent pointer is null and the list is empty, and every former child is orphaned. The parent's list loses every copy of the node its lookup found first: this node, or an earlier namesake, in which case this node stays in the list. The parent keeps its own parent, path, depth, transforms and colour. The node found keeps its back-pointer and sits one level below it; when that back-pointer is a third node, its list gains one more copy of the node found. Former children that the detaching step did not touch keep every other field: they are orphaned, not destroyed. |
| Nodes.RemovedChildCannotBeTornDown | framework/source/Node.cpp:26-28 | When a node has been removed from a parent's list of uniquely named children but still points to that parent, the parent's lookup by its name misses, and its teardown precondition fails. |
| Scene.SceneGraph.constructor | framework/source/SceneGraph.cpp:3-5 | The root starts null and the name empty. |
| Scene.SceneGraph.GetName | framework/source/SceneGraph.cpp:19-21 | Returns the stored name. |
| Scene.SceneGraph.GetRoot | framework/source/SceneGraph.cpp:23-25 | Returns the stored root pointer, null before any `setRoot`. |
| Scene.SceneGraph.SetName | framework/source/SceneGraph.cpp:11-13 | The name reads back as the value written. The root pointer is unchanged. |
| Scene.SceneGraph.SetRoot | framework/source/SceneGraph.cpp:15-17 | The root reads back as the pointer written, and the name is unchanged. No node is modified, so the previous tree stays as it was. |
| Scene.SceneGraph.PrintGraph | framework/source/SceneGraph.cpp:27-45 | Requires a non-null root. The result is exactly the root's name. |
| Scene.SceneGraph.Destroy | framework/source/SceneGraph.cpp:7-9 | Only the root pointer is nulled. No node is freed or changed. |
| Camera.CameraNode.constructor | framework/source/CameraNode.cpp:14-18 | A fresh node in its initial state, perspective on, enabled on, and an identity projection. |
| Camera.CameraNode.GetPerspective | framework/source/CameraNode.cpp:27-29 | Returns the stored perspective flag. |
| Camera.CameraNode.GetEnabled | framework/source/CameraNode.cpp:41-43 | Returns the stored enabled flag. |
| Camera.CameraNode.GetProjectionMatrix | framework/source/CameraNode.cpp:57-59 | Returns the stored projection matrix. |
| Camera.CameraNode.SetPerspective | framework/source/CameraNode.cpp:34-36 | The perspective flag reads back as written. The enabled flag, the projection and the tree links are unchanged. |
| Camera.CameraNode.SetEnabled | framework/source/CameraNode.cpp:49-51 | The enabled flag reads back as written. The perspective flag, the projection and the tree links are unchanged. |
| Camera.CameraNode.SetProjectionMatrix | framework/source/CameraNode.cpp:61-63 | The projection reads back as written. Both flags and the tree links are unchanged. |
| PointLight.PointLightNode.Default | framework/source/PointLightNode.cpp:3 | A fresh node in the initial state of `Node()`, with colour and intensity unset. |
| PointLight.PointLightNode.constructor | framework/source/PointLightNode.cpp:4 | A fresh node in the initial state of `Node(name)`, with colour and intensity unset. |
| PointLight.PointLightNode.GetLightIntensity | framework/source/PointLightNode.cpp:7-9 | Returns the intensity, and requires it to have been set. |
| PointLight.PointLightNode.GetLightColour | framework/source/PointLightNode.cpp:11-13 | Returns the colour, and requires it to have been set. |
| PointLight.PointLightNode.SetLightColour | framework/source/PointLightNode.cpp:15-17 | The colour becomes set and reads back as written. The intensity is unchanged. |
| PointLight.PointLightNode.SetLightIntensity | framework/source/PointLightNode.cpp:19-21 | The intensity becomes set and reads back as written. The colour is unchanged. |
| Geometry.GeometryNode.constructor | framework/source/GeometryNode.cpp:8-16 | A fresh node in its initial state. It stores the given mesh, colour and pixels, and the texture record is the default: handle 0, target `GL_NONE`. |
| Geometry.GeometryNode.GetGeometry | framework/source/GeometryNode.cpp:22-24 | Returns the stored mesh. |
| Geometry.GeometryNode.GetColor | framework/source/GeometryNode.cpp:31-33 | Returns the geometry's own colour, not the node colour. |
| Geometry.GeometryNode.GetTexture | framework/source/GeometryNode.cpp:39-41 | Returns the stored pixels. |
| Geometry.GeometryNode.GetTextureObj | framework/source/GeometryNode.cpp:47-49 | Returns the stored texture record. |
| Geometry.GeometryNode.SetGeometry | framework/source/GeometryNode.cpp:27-29 | The mesh reads back as written. |
| Geometry.GeometryNode.SetColor | framework/source/GeometryNode.cpp:35-37 | The geometry's colour reads back as written. |
| Geometry.GeometryNode.SetTexture | framework/source/GeometryNode.cpp:43-45 | The pixels read back as written. |
| Geometry.GeometryNode.SetTextureObj | framework/source/GeometryNode.cpp:50-52 | The texture record reads back as written. |
| Geometry.GeometryNode.SetTextureObjAttribute | framework/source/GeometryNode.cpp:54-57 | The texture record becomes exactly the given handle and target. The mesh, colour and pixels are unchanged. |
| SolarScene.RootChildLookups | application/source/application_solar.cpp:373-390 | In a child list carrying the start-up names in order, the lookups find the sun at position 1 and the earth at position 4. No direct child is called `holder_moon`. |
| SolarScene.CreateCamera | application/source/application_solar.cpp:549-581 | The camera is enabled and in perspective mode. It is the root's new last child, one path segment and one level below the root. Its world transform is the supplied world matrix. |
| SolarScene.CreateSun | application/source/application_solar.cpp:584-606 | The holder is the root's new last child. It carries `sun_geometry` and then `point_light`, each with full paths and depth two below the root. The light has colour (0.5, 0.5, 0.5) and intensity 0.5. |
| SolarScene.CreatePlanet | application/source/application_solar.cpp:609-626 | The holder is the root's new last child and carries exactly one child, named `"geometry_" + name`, whose path runs through the holder. |
| SolarScene.CreateInnerPlanets | application/source/application_solar.cpp:375-382 | Mercury, Venus, Earth and Mars are appended in that order. Each holder is fresh, directly under the root, and carries its geometry child. |
| SolarScene.CreateOuterPlanets | application/source/application_solar.cpp:383-390 | Jupiter, Saturn, Uranus and Neptune are appended in that order, with the same facts. |
| SolarScene.CreateMoonForPlanet | application/source/application_solar.cpp:629-650 | When the root has no direct child with the planet's name, nothing changes. Otherwise the moon holder is appended under that planet with its geometry child, and its path and depth run through the planet. |
| SolarScene.CreateBodies | application/source/application_solar.cpp:373-390 | Starting from an empty root, the root's children carry the ten start-up names in order, each one level and one path segment below the root. The sun is found by name and holds a `point_light`. The earth is found by name and carries its geometry. No direct child is called `holder_moon`. |
| SolarScene.AttachMoon | application/source/application_solar.cpp:393-394 | The moon ends up under the earth, after its geometry, at depth 2 with path `\root\holder_earth\holder_moon`. Every root-level fact, and the sun's, is preserved. The moon is found from the earth but not from the root. |
| SolarScene.BuildSolarSystem | application/source/application_solar.cpp:362-398 | The whole start-up sequence gives the graph the name `scene_graph_1`, and `printGraph` yields `root`. The root has the ten children in order, the sun's `point_light` is reachable by two lookups, and the moon is reachable via the earth only. |

## Left out

- Matrix and vector arithmetic (glm, floating point) is not modelled. Matrices and colours are values that are stored and copied. `glm::fmat4{}` and `glm::mat4{1}` are both taken to be the identity.
- `SolarScene.CreateCamera`: the camera's world matrix, which `create_camera` computes with `glm::translate` and `glm::rotate`, is a parameter. The view transform the application derives from it, the world matrix times the local one, is application state outside the scene graph.
- OpenGL handles and enumerants are opaque 32-bit numbers. No GL call is modelled.
- The mesh and pixel data are abstract types. Loading models and textures from files is left out: one mesh and one pixel buffer stand for every file the application reads.
- Memory management is not modelled. `new` is Dafny allocation, and nothing is ever freed. The node destructor's unlinking is the explicit method `Teardown`, and the scene-graph destructor is `Destroy`.
- `Nodes.Node.AddChild`: depth is an unbounded integer, so the 32-bit overflow of a tree more than 2^31 levels deep is not modelled.
- `Nodes.Node.GetColor`, `PointLight.PointLightNode.GetLightColour` and `PointLight.PointLightNode.GetLightIntensity`: they require the field to have been set, rather than returning an indeterminate value.
- The commented-out traversal in `printGraph` is dead code and is not modelled.
- The output of `printGraph` to the console is not modelled.
- `SolarScene.CreateMoonForPlanet`: it returns the new moon holder (or null). The application's function returns nothing, and the result only lets the scenario state where the moon went.
- The application's eight `create_planet` calls are grouped into `SolarScene.CreateInnerPlanets` and `SolarScene.CreateOuterPlanets`. The order of the calls and their arguments is unchanged.
- The frame loop, drawing, shaders, input callbacks, star generation and orbit animation of the application are outside the scene graph and are not modelled.
- The application's own `Node`, `SceneGraph`, `CameraNode` and `GeometryNode` sources under `application/` are not part of this model. They are an unfinished `shared_ptr` revision that does not build.
- The fixed-function demo `application/source/application_fixed.cpp` is not part of this model.
- The headers `framework/include/Node.hpp` and `framework/include/GeometryNode.hpp` lag behind their `.cpp` files: they lack `color_` and the four-argument constructor. The `.cpp` files are followed.
