# EmptyGL core, modelled in Dafny

EmptyGL is a small OpenGL renderer: a free-look camera, projection matrices,
meshes that bind their textures and draw themselves, and a scene that imports
models through Assimp. This project models the sequential logic of that code
over exact reals and proves what it promises.

- `wrappers.dfy` (`Wrappers`): the `Option` type used for lookups and imports.
- `vectors.dfy` (`Vectors`): 2- and 3-vectors over reals, with sum, difference, scaling and cross product.
- `cameras.dfy` (`Cameras`): the `Camera` class of include/camera.h and src/camera.cpp.
  - Its fields are updated in place by the three constructors, `ProcessKeyboard`,
    `ProcessMouseMovement`, `ProcessMouseScroll` and `UpdateCameraVectors`.
  - Each method is proved against a pure step function on a `CameraState`
    snapshot (`Keyboard`, `MouseMove`, `Scroll`, `WithVectors`, `Initial`), and
    the clamps, exact updates and frame conditions are stated on those functions.
  - `Movement` has exactly the four directions of `Camera_Movement`.
  - `sin`, `cos` and `normalized()` are the fields of a `MathLib` value that the
    camera holds, so the derived front/right/up vectors are an uninterpreted
    function of yaw, pitch and world up.
- `geometry.dfy` (`Geometry`): `orthographic` and `perspective` of src/geometry.cpp as
  4x4 matrices over reals.
  - The tangent is a function parameter.
  - The Ortho matrix of section 2.11.2 of the OpenGL 2.1 specification is proved
    to map the box onto the clip cube.
  - For the symmetric Frustum matrix of the same section, the near and far planes
    are proved to reach depth -1 and +1 after the divide. The four side planes
    y = ±z·tan(fov/2) and x = ±z·tan(fov/2)·aspect are proved to reach the clip
    planes y = ±w and x = ±w.
- `meshes.dfy` (`Meshes`): the `Mesh` class of src/mesh.cpp.
  - Its lists are constant after construction.
  - `Draw` runs the source's counter loops and returns the trace of shader and GL
    calls it makes. It is proved equal to `DrawTrace`, a definition by position
    in the texture list, and the texture-unit and uniform-name rules are proved
    about `DrawTrace`.
- `scenes.dfy` (`Scenes`): the `Scene` class of src/scene.cpp.
  - Assimp's imported scene (faces, meshes, materials, the node tree) is a datatype.
  - The importer is a function from a path to an optional scene, held by the Scene.
  - Every method (`LoadModel`, `ProcessNode`, `ProcessMesh`, `LoadMaterialTextures`
    and the constructors' loop) is proved against a pure function on a
    `SceneState` snapshot. The texture cache, the pre-order flattening of the
    node tree, the face-index concatenation and the directory prefix are proved
    about those functions.
  - `glGenTextures` is a counter field `nextTextureName` that starts at 1 and
    hands out a fresh name for each texture loaded.

## Model

| member | source | states |
|---|---|---|
| Cameras.Radians | include/geometry.h:12-15 | degree2Radian: the result times 180 is the angle in degrees times PI |
| Cameras.EulerFront | src/camera.cpp:51-54 | at a pitch whose cosine is 0 the front has no horizontal part, whatever the yaw |
| Cameras.CameraVectors | src/camera.cpp:58-59 | right is the normalised cross product of the front with world up, and up that of right with the front |
| Cameras.DefaultBasis | src/camera.cpp:50-59 | with the true sine and cosine at 0 and -PI and a normalisation that leaves unit axis vectors alone, yaw 0 and pitch 0 under world up +y give front (0, 0, -1), right (1, 0, 0) and up (0, 1, 0): the 180-degree shift makes yaw 0 look down -z |
| Cameras.StraightUpFront | src/camera.cpp:51-54 | with the true sine and cosine at PI/2, pitch 90 gives the front (0, 1, 0) for every yaw, whose cross product with world up vanishes; the pitch clamp keeps the camera away from it |
| Cameras.Initial | include/camera.h:19-23 | the state every constructor leaves: given position, world up, yaw and pitch verbatim (no pitch clamp), speed 2.5, sensitivity 0.1, zoom 90, and front/right/up derived from yaw, pitch and world up |
| Cameras.Camera.Default | include/camera.h:44-48 | the default camera is at the origin with world up (0,1,0), yaw 0 and pitch 0, with the default options and derived vectors |
| Cameras.Camera.FromVectors | include/camera.h:51-59 | the vector constructor stores the position, `up` as world up, and yaw and pitch verbatim, then derives the vectors |
| Cameras.Camera.FromScalars | include/camera.h:62-69 | the scalar constructor builds the same camera as the vector constructor on the assembled vectors |
| Cameras.WithVectors | src/camera.cpp:49-60 | after updateCameraVectors the basis is the one derived from yaw, pitch and world up, and no other field changes |
| Cameras.Camera.UpdateCameraVectors | src/camera.cpp:49-60 | the method leaves exactly the state WithVectors describes |
| Cameras.Keyboard | src/camera.cpp:12-22 | only the position changes, by +front, -front, -right or +right times speed*deltaTime according to the direction |
| Cameras.Velocity | src/camera.cpp:13 | the distance speed * deltaTime is 0 when no time has passed, and not negative for a non-negative speed and time |
| Cameras.Camera.ProcessKeyboard | src/camera.cpp:12-22 | the method's new state is Keyboard of the old state |
| Cameras.KeyboardInverse | src/camera.cpp:14-21 | forward then backward, or left then right, with the same deltaTime gives back the original state |
| Cameras.ConstrainPitch | src/camera.cpp:32-37 | with the clamp on, pitch ends in [-89, 89]: kept when inside, 89 above, -89 below; with it off, pitch is untouched |
| Cameras.Scaled | src/camera.cpp:25-26 | an offset times the sensitivity is 0 for a zero offset, and keeps the offset's sign for a positive sensitivity |
| Cameras.MouseMove | src/camera.cpp:24-41 | yaw becomes yaw - sensitivity*x and is never clamped; pitch becomes pitch + sensitivity*y, clamped to [-89, 89] only on request; the basis is derived again; nothing else changes |
| Cameras.Camera.ProcessMouseMovement | src/camera.cpp:24-41 | the method's new state is MouseMove of the old state |
| Cameras.MouseMoveInverse | src/camera.cpp:25-29 | without the clamp, a movement followed by the opposite movement restores the whole state of a camera whose basis is derived |
| Cameras.Scroll | src/camera.cpp:43-47 | zoom always ends in [1, 45]; it is exactly zoom - y when that is in range, 1 below, 45 above; no other field changes |
| Cameras.Camera.ProcessMouseScroll | src/camera.cpp:43-47 | the method's new state is Scroll of the old state |
| Cameras.ScrollAll | src/camera.cpp:43-47 | after any non-empty sequence of scrolls, zoom is in [1, 45] and no other field has changed |
| Cameras.FirstScrollFromDefault | include/camera.h:23 | the default zoom 90 lies outside [1, 45]; the first scroll from it gives 45 for every y <= 45, 1 for y > 89, and 90 - y otherwise |
| Geometry.Orthographic | src/geometry.cpp:33-41 | the matrix keeps w, and each clip coordinate of a point is an affine function of the matching eye coordinate only |
| Geometry.KeepsWBottomRow | src/geometry.cpp:39 | a matrix that keeps w, as Orthographic does, has bottom row (0, 0, 0, 1) |
| Geometry.OrthographicNormalises | src/geometry.cpp:36-39 | a point is mapped to ((2x-r-l)/(r-l), (2y-t-b)/(t-b), (-2z-f-n)/(f-n), 1) |
| Geometry.OrthographicMapsBox | src/geometry.cpp:36-38 | x = left/right goes to -1/+1, y = bottom/top to -1/+1, z = -near/-far to -1/+1 |
| Geometry.OrthographicCentre | src/geometry.cpp:36-39 | the centre of the box goes to the clip-space origin (0, 0, 0, 1) |
| Geometry.Perspective | src/geometry.cpp:21-31 | y_scale*tan(fov/2) = 1 and x_scale*aspect = y_scale; clip x and y are eye x and y scaled; clip w = -eye z; clip z is the depth row applied to eye z |
| Geometry.ScalesXRow | src/geometry.cpp:26 | a matrix whose clip x only scales eye x, as Perspective's does, has a first row with zero off-diagonal entries |
| Geometry.ScalesYRow | src/geometry.cpp:27 | the same for clip y and the second row |
| Geometry.NegatedDepthBottomRow | src/geometry.cpp:29 | a matrix with clip w = -eye z, as Perspective's, has bottom row (0, 0, -1, 0) |
| Geometry.DepthRow | src/geometry.cpp:28 | the depth row sends eye depth -near to -near and -far to far |
| Geometry.PerspectiveDepth | src/geometry.cpp:28-29 | after the perspective divide, the near plane has depth -1 and the far plane +1 |
| Geometry.PerspectiveSides | src/geometry.cpp:21-29 | at any eye depth z, the planes y = -z·tan(fov/2) and y = z·tan(fov/2) reach clip y = w and y = -w, and the planes x = ∓z·tan(fov/2)·aspect reach clip x = ±w, with w = -z: for z ≠ 0, after the divide they lie at +1 and -1 |
| Geometry.ScalingSides | src/geometry.cpp:26-29 | any matrix with Perspective's zero entries, bottom row and two scale relations maps the side planes so |
| Geometry.PerspectiveRightAngle | src/geometry.cpp:22-28 | with tan(fov/2) = 1, aspect 1, near 0.1 and far 1000, x and y are scaled by 1 and the depth scale is -1000.1/999.9 |
| Meshes.Mesh.constructor | src/mesh.cpp:9-12 | the mesh stores vertices, indices and textures equal to its arguments |
| Meshes.NatToString | src/mesh.cpp:61-63 | std::to_string of an unsigned number: a non-empty string of decimal digits, one digit exactly for numbers below 10 |
| Meshes.NatToStringInjective | src/mesh.cpp:61-63 | different numbers get different numerals |
| Meshes.NatToStringValue | src/mesh.cpp:61-63 | the numeral reads back in decimal as the number, with no leading zero |
| Meshes.CountKind | src/mesh.cpp:43-44 | a count of textures of one kind among the first n is at most n |
| Meshes.CountKindPrefix | src/mesh.cpp:60-63 | the counters only grow along the texture list |
| Meshes.UniformName | src/mesh.cpp:59-66 | the uniform name starts with the texture's type, and is longer than it exactly for diffuse and specular textures |
| Meshes.Rank | src/mesh.cpp:58-63 | the number after the type is non-empty exactly for diffuse and specular textures, and is made of decimal digits |
| Meshes.BindOne | src/mesh.cpp:55-67 | one texture's calls: select unit i, set a uniform whose name starts with the texture's type to i, bind the texture's id |
| Meshes.BindCalls | src/mesh.cpp:54-68 | the texture loop issues three calls per texture |
| Meshes.BindCallsLast | src/mesh.cpp:54-68 | the last three calls for the first n textures are those for texture n - 1 |
| Meshes.UnbindCalls | src/mesh.cpp:76-79 | the unbind loop issues two calls per texture unit |
| Meshes.DrawTrace | src/mesh.cpp:42-80 | a draw issues 4 + 5 calls per texture: the flag, three per texture bound, the draw itself, two per unit unbound |
| Meshes.Mesh.Draw | src/mesh.cpp:42-80 | the loops issue exactly DrawTrace of the mesh's textures and index count, and leave texture_idx equal to the number of textures |
| Meshes.UseTextureFlag | src/mesh.cpp:48-52 | the first call sets use_texture, to false exactly when the mesh has no textures |
| Meshes.TextureUnit | src/mesh.cpp:54-67 | the i-th texture is bound to texture unit i, and its uniform is set to i |
| Meshes.BindCallsAt | src/mesh.cpp:55-67 | in the loop's calls, the three for texture i sit at position 3i: select unit i, set its uniform, bind its id |
| Meshes.UnbindCallsAt | src/mesh.cpp:76-79 | in the unbind loop's calls, unit j is selected and texture 0 bound at position 2j |
| Meshes.DrawThenUnbind | src/mesh.cpp:71-79 | the draw call covers all indices, and afterwards exactly units 0 .. n-1 are unbound, in order |
| Meshes.RankedName | src/mesh.cpp:43-63 | the k-th diffuse (specular) texture, counting from 1 among its own kind only, gets the uniform name texture_diffuse (texture_specular) followed by k |
| Meshes.UnrankedName | src/mesh.cpp:58-63 | a texture of any other type gets its type name with no number |
| Meshes.DistinctNames | src/mesh.cpp:59-66 | two diffuse or two specular textures of a mesh never share a uniform name |
| Scenes.FindPath | src/scene.cpp:118-124 | the scan of textures_loaded finds a position holding the path, and finds none exactly when the path is not cached |
| Scenes.FindPathFirst | src/scene.cpp:118-123 | the scan stops at the first texture with the path |
| Scenes.CacheHit | src/scene.cpp:118-123 | a scan that matches at j after no match before finds j |
| Scenes.CacheMiss | src/scene.cpp:118-125 | a scan of the whole cache without a match finds nothing |
| Scenes.Scene.SearchCache | src/scene.cpp:118-124 | the inner loop finds the first cached texture with the path, or reports that none has it |
| Scenes.CachedStep | src/scene.cpp:118-124 | a path found in the cache appends the cached texture to the result and leaves the scene as it was |
| Scenes.UncachedStep | src/scene.cpp:125-132 | a path not in the cache appends a texture under the next name, with the requested type, to both the result and the cache |
| Scenes.LoadTexture | src/scene.cpp:113-132 | one path gives exactly one texture, with that path; the cache only grows; meshes and directory are untouched |
| Scenes.LoadTextureCaches | src/scene.cpp:118-132 | the scene is left unchanged exactly when the path was cached, and the returned texture is in the cache afterwards |
| Scenes.ReuseKeepsType | src/scene.cpp:119-121 | a cached texture is returned as it was cached, with the type it was first loaded under, whatever type is asked for now |
| Scenes.LoadNewTexture | src/scene.cpp:125-132 | a path not cached is loaded under the next name with the requested type and appended once to both the result and the cache |
| Scenes.LoadTextureKeepsCacheOk | src/scene.cpp:118-132 | one path keeps the cache free of duplicate paths and names, with every name non-zero and below the next |
| Scenes.LoadTextures | src/scene.cpp:110-135 | one texture per path the material lists; the cache is append-only; meshes and directory are untouched |
| Scenes.LoadTexturesPaths | src/scene.cpp:112-133 | the i-th texture returned has the i-th path, so textures come in index order |
| Scenes.LoadTexturesCached | src/scene.cpp:118-132 | every texture returned is in the cache afterwards |
| Scenes.LoadTexturesReuse | src/scene.cpp:118-124 | when every path is cached already, the cached textures are returned and nothing is generated or appended |
| Scenes.LoadTexturesKeepsCacheOk | src/scene.cpp:118-131 | a well-formed cache (unique paths and names, every name in (0, next)) stays well formed after a material's paths are loaded |
| Scenes.LoadTextureKeepsPathsUnique | src/scene.cpp:118-131 | one path never adds a second texture with a path already cached |
| Scenes.LoadTexturesKeepsPathsUnique | src/scene.cpp:112-133 | the textures_loaded list holds each path at most once after a material's paths are loaded, if it did before |
| Scenes.EmptyCacheOk | include/scene.h:27 | a new Scene's empty cache, with next name 1, is well formed |
| Scenes.Scene.LoadMaterialTextures | src/scene.cpp:110-135 | the nested loops return and leave exactly what LoadTextures describes |
| Scenes.Scene.LoadPath | src/scene.cpp:113-132 | one pass of the loop returns and leaves exactly what LoadTexture describes |
| Scenes.Vertices | src/scene.cpp:70-88 | one vertex per imported vertex (with its position, normal, and first UV set or (0, 0)) |
| Scenes.CopyVertices | src/scene.cpp:70-88 | the vertex loop builds exactly Vertices |
| Scenes.CopyIndices | src/scene.cpp:90-94 | the index loops build the concatenation of each face's indices in face order |
| Scenes.FaceIndicesAppend | src/scene.cpp:90-94 | the concatenation of face indices distributes over concatenated face lists |
| Scenes.FaceIndicesAt | src/scene.cpp:90-94 | face i's indices sit in order right after those of the faces before it |
| Scenes.TriangulatedIndexCount | src/scene.cpp:90-94 | after triangulation there are three indices per face |
| Scenes.FaceIndices | src/scene.cpp:90-94 | the concatenation of the faces' indices, in which every face's indices fit |
| Scenes.ProcessMeshBuilds | src/scene.cpp:64-107 | the mesh has the imported vertices and the flattened face indices; meshes and directory are untouched; the cache only grows; without textures nothing is loaded and the mesh has none |
| Scenes.ProcessMeshTextures | src/scene.cpp:96-104 | with textures, the mesh gets one texture per diffuse path, in order, followed by one per specular path |
| Scenes.ProcessMeshF | src/scene.cpp:64-108 | processMesh leaves the scene's meshes and directory untouched; the caller appends the mesh |
| Scenes.ProcessMeshKeepsCacheOk | src/scene.cpp:96-105 | loading a mesh's diffuse and specular maps keeps the cache well formed |
| Scenes.Scene.ProcessMesh | src/scene.cpp:64-108 | the returned mesh and the new scene state are those ProcessMeshF describes |
| Scenes.ProcessMeshesAppends | src/scene.cpp:54-57 | the node's loop appends one converted mesh per mesh index, in order, keeping the meshes before |
| Scenes.ProcessMeshesF | src/scene.cpp:54-57 | the node's loop keeps the meshes before and appends exactly one per mesh index; the directory is untouched |
| Scenes.ProcessMeshesKeepsCacheOk | src/scene.cpp:54-57 | the node's loop over its meshes keeps the cache well formed |
| Scenes.Scene.ProcessMeshes | src/scene.cpp:54-57 | the first loop of processNode leaves exactly the state ProcessMeshesF describes |
| Scenes.PreOrder | src/scene.cpp:52-62 | a node's own mesh indices come first in its subtree's pre-order |
| Scenes.PreOrderAll | src/scene.cpp:59-61 | the children's subtrees in turn, long enough to hold every child's own mesh indices |
| Scenes.ProcessNodePreOrder | src/scene.cpp:52-62 | processNode appends one converted mesh per entry of the subtree's pre-order: the node's own meshes first, then each child's subtree in order |
| Scenes.ProcessChildrenPreOrder | src/scene.cpp:59-61 | processing children in turn appends their subtrees' pre-orders one after another |
| Scenes.ProcessNodeF | src/scene.cpp:52-62 | processNode keeps the meshes before and appends exactly one per entry of the subtree's pre-order; the directory is untouched |
| Scenes.ProcessChildrenF | src/scene.cpp:59-61 | the children's loop keeps the meshes before and appends one per entry of the children's pre-orders |
| Scenes.ProcessNodeKeepsCacheOk | src/scene.cpp:52-62 | processing a subtree keeps the cache well formed |
| Scenes.ProcessChildrenKeepsCacheOk | src/scene.cpp:59-61 | processing the children in turn keeps the cache well formed |
| Scenes.Scene.ProcessNode | src/scene.cpp:52-62 | the recursive method leaves exactly the state ProcessNodeF describes |
| Scenes.LastSlash | src/scene.cpp:47 | find_last_of('/'): the position of a '/' with none after it, or none exactly when the path has no '/' |
| Scenes.DirectoryOf | src/scene.cpp:47 | the directory is a prefix of the path |
| Scenes.DirectoryOfJoin | src/scene.cpp:47 | the directory of dir + "/" + file, with file free of '/', is dir |
| Scenes.DirectoryOfBareName | src/scene.cpp:47 | a path without '/' is its own directory |
| Scenes.ImportFailed | src/scene.cpp:43 | the three failure tests: an import that passes them has a scene, complete, with a root node |
| Scenes.LoadModelFailure | src/scene.cpp:43-46 | a missing scene, an incomplete one or one without a root leaves meshes, directory and cache unchanged |
| Scenes.LoadModelSuccess | src/scene.cpp:47-49 | otherwise the directory is the prefix before the last '/', and the meshes of the node tree are appended in pre-order after those loaded before |
| Scenes.LoadModelF | src/scene.cpp:39-50 | loadModel never removes or changes the meshes loaded before |
| Scenes.LoadModelKeepsCacheOk | src/scene.cpp:39-50 | loadModel keeps the cache well formed, whether the import fails or not |
| Scenes.Scene.LoadModel | src/scene.cpp:39-50 | the method leaves exactly the state LoadModelF describes |
| Scenes.Scene.LoadPaths | src/scene.cpp:18-20 | loading a list of paths is loadModel on each in turn |
| Scenes.LoadAllF | src/scene.cpp:18-20 | loading a list of paths never removes or changes the meshes loaded before |
| Scenes.LoadAllKeepsCacheOk | src/scene.cpp:18-20 | loading a list of paths keeps the cache well formed |
| Scenes.Scene.constructor | src/scene.cpp:17-21 | Scene(path_list) starts empty and loads every path with textures; its cache holds each path and each name at most once, every name non-zero |
| Scenes.Scene.WithTexture | src/scene.cpp:23-27 | Scene(path_list, with_texture) starts empty and loads every path with or without textures; its cache is well formed likewise |
| Scenes.Contents | include/scene.h:25 | the values of the scene's meshes, one per mesh |

## Left out

- Floating point: every `float` is a Dafny `real`. Rounding, overflow, infinities and NaN are not modelled.
- `sin`, `cos`, `tanf` and `normalized()` are uninterpreted functions given as parameters. `degree2Radian` (include/geometry.h:12-15) is the literal product with 1/180*PI.
- Cameras.WithVectors: sin, cos and normalized are uninterpreted, so the orthonormality of the derived basis is not stated.
- `getViewMatrix` and `lookAt` (src/camera.cpp:8-10, src/geometry.cpp:7-19): float trigonometry and normalisation, outside the modelled core.
- Geometry.Orthographic: requires left != right, bottom != top and near != far. Real division by zero is undefined in Dafny; the source would produce infinities or NaN.
- Geometry.Perspective: requires tan(fov/2) != 0, aspect != 0 and far != near, for the same reason.
- `Mesh::setup_mesh`, `Mesh::draw_depth`, `Scene::draw` and `Scene::draw_depth`: GL buffer setup and draw calls with no logic beyond the draw call that Mesh.Draw already models.
- The shader (src/shader.cpp, include/shader.h) is not part of this model. Its uniform setters are the `SetBool`/`SetInt` entries of the draw trace.
- main.cpp (window, callbacks, render loop) and test/test.cpp (prints a matrix) are not part of this model.
- `generateTextureFromFile`: image decoding and upload are left out. The texture name it returns is the next value of the counter `nextTextureName`, starting at 1, whether or not the image loads, as in the source.
- Assimp: `ReadFile` is the Scene's `readFile` function. The scenes it accepts (complete, with a root) are assumed well formed: one normal per vertex, one coordinate per vertex in the first UV set, existing material and mesh indices. Triangulation and UV flipping are the importer's business; TriangulatedIndexCount states what the loader gets when faces are triangles.
- The error message loadModel prints when an import fails is output only and is not modelled.
- `mMaterialIndex >= 0` is a test on an unsigned value, so it always holds. The model keeps the test on a `nat`.
- Unsigned 32-bit indices and counters are `nat`. They never wrap for lists that fit in memory.
- The `static_cast<int>` of the texture unit is the identity for the same reason.
- The path comparison uses `strcmp` on C strings, which stops at an embedded NUL. The model compares whole strings.
- Scenes.CopyVertices and Scenes.CopyIndices: the vertex and index loops of processMesh are two module-level methods that Scene.ProcessMesh calls, not inline loops.
- Scenes.Scene.ProcessMeshes, Scenes.Scene.LoadPath and Scenes.Scene.SearchCache: the first loop of processNode, the body of loadMaterialTextures' loop and its inner scan are methods of their own, not inline code.
- The GL objects a mesh owns (VAO, VBO, EBO) and copying a Mesh into the `meshes` vector are not modelled; a Mesh is an object whose lists never change.
