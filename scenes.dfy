/**
 * The model loader (include/scene.h, src/scene.cpp).
 *
 * Assimp's imported scene is given as datatypes: faces, meshes, materials
 * (reduced to their lists of diffuse and specular texture paths) and the node
 * tree.  The importer itself is a function from a path to an optional scene,
 * held by the Scene.  The Scene is a class whose fields the loader updates
 * in place; each of its methods is verified against a pure function on a
 * SceneState snapshot, and the properties of the loader are proved about
 * those functions.
 *
 * glGenTextures is modelled by a counter of texture names: a texture loaded
 * for the first time takes the next unused name, and names start at 1, since
 * GL never hands out 0 (0 is what Mesh::draw binds to unbind a unit).
 */
module Scenes {
  import opened Wrappers
  import opened Vectors
  import opened Meshes

  // ---------------------------------------------------------------------------
  // The imported scene.

  datatype AiFace = AiFace(indices: seq<nat>)

  /** An imported mesh; textureCoords is the first texture-coordinate set, if any. */
  datatype AiMesh = AiMesh(vertices: seq<Vec3>, normals: seq<Vec3>, textureCoords: Option<seq<Vec3>>,
                           faces: seq<AiFace>, materialIndex: nat)

  datatype TextureType = DiffuseMap | SpecularMap

  /** A material, reduced to the texture paths it lists for each texture type. */
  datatype AiMaterial = AiMaterial(diffuse: seq<string>, specular: seq<string>)
  {
    function Textures(kind: TextureType): seq<string> {
      match kind
      case DiffuseMap => diffuse
      case SpecularMap => specular
    }
  }

  /** A node of the scene graph: indices into the scene's meshes, and child nodes. */
  datatype AiNode = AiNode(meshes: seq<nat>, children: seq<AiNode>)

  datatype AiScene = AiScene(meshes: seq<AiMesh>, materials: seq<AiMaterial>, incomplete: bool, root: Option<AiNode>)

  /** What the loader relies on in a mesh: one normal and one coordinate per vertex, an existing material. */
  predicate MeshOk(m: AiMesh, materialCount: nat) {
    && |m.normals| == |m.vertices|
    && (m.textureCoords.Some? ==> |m.textureCoords.value| == |m.vertices|)
    && m.materialIndex < materialCount
  }

  /** Every mesh index in the subtree refers to an existing mesh. */
  predicate NodeOk(node: AiNode, meshCount: nat)
    decreases node
  {
    && (forall k :: 0 <= k < |node.meshes| ==> node.meshes[k] < meshCount)
    && (forall c :: c in node.children ==> NodeOk(c, meshCount))
  }

  predicate WellFormed(s: AiScene) {
    && (forall i :: 0 <= i < |s.meshes| ==> MeshOk(s.meshes[i], |s.materials|))
    && (s.root.Some? ==> NodeOk(s.root.value, |s.meshes|))
  }

  // ---------------------------------------------------------------------------
  // The loader's state.

  /** Every field of a Scene, with its meshes as values. */
  datatype SceneState = SceneState(meshes: seq<MeshData>, directory: string,
                                   texturesLoaded: seq<Texture>, nextTextureName: nat)

  /** A freshly constructed Scene. */
  const Empty: SceneState := SceneState([], "", [], 1)

  /** Some texture in the cache was loaded from this path. */
  predicate Has(loaded: seq<Texture>, path: string) {
    exists k :: 0 <= k < |loaded| && loaded[k].path == path
  }

  /** No two textures of the list were loaded from the same path. */
  predicate NoDupPaths(loaded: seq<Texture>) {
    forall i, j :: 0 <= i < j < |loaded| ==> loaded[i].path != loaded[j].path
  }

  /**
   * The cache holds each path at most once, each texture under its own name,
   * and every name is non-zero and below the next one to be handed out.
   */
  predicate CacheOk(st: SceneState) {
    && 0 < st.nextTextureName
    && NoDupPaths(st.texturesLoaded)
    && (forall i, j :: 0 <= i < j < |st.texturesLoaded| ==> st.texturesLoaded[i].id != st.texturesLoaded[j].id)
    && (forall i :: 0 <= i < |st.texturesLoaded| ==> 0 < st.texturesLoaded[i].id < st.nextTextureName)
  }

  // ---------------------------------------------------------------------------
  // loadMaterialTextures: the texture cache.

  /** The first position of the cache that holds the path. */
  function FindPath(loaded: seq<Texture>, path: string): (r: Option<nat>)
    ensures r.Some? ==> r.value < |loaded| && loaded[r.value].path == path
    ensures r.None? <==> !Has(loaded, path)
  {
    if loaded == [] then None
    else match FindPath(loaded[..|loaded| - 1], path)
      case Some(k) => Some(k)
      case None => if loaded[|loaded| - 1].path == path then Some(|loaded| - 1) else None
  }

  /** The search finds the first texture with the path. */
  lemma {:induction false} FindPathFirst(loaded: seq<Texture>, path: string)
    ensures FindPath(loaded, path).Some? ==> forall k :: 0 <= k < FindPath(loaded, path).value ==> loaded[k].path != path
  {
    if loaded != [] {
      FindPathFirst(loaded[..|loaded| - 1], path);
    }
  }

  /** The textures returned so far and the state of the scene after returning them. */
  datatype Loaded = Loaded(textures: seq<Texture>, state: SceneState)

  /**
   * One texture path: the cached texture when the path was loaded before,
   * otherwise a new texture under the next name, which is also cached.
   */
  function LoadTexture(st: SceneState, path: string, typeName: string): (r: Loaded)
    ensures |r.textures| == 1 && r.textures[0].path == path
    ensures st.texturesLoaded <= r.state.texturesLoaded
    ensures r.state.meshes == st.meshes && r.state.directory == st.directory
  {
    match FindPath(st.texturesLoaded, path)
    case Some(k) => Loaded([st.texturesLoaded[k]], st)
    case None =>
      var texture := Texture(st.nextTextureName, typeName, path);
      Loaded([texture], st.(texturesLoaded := st.texturesLoaded + [texture],
                            nextTextureName := st.nextTextureName + 1))
  }

  /** loadMaterialTextures over a material's list of paths for one texture type. */
  function LoadTextures(st: SceneState, paths: seq<string>, typeName: string): (r: Loaded)
    ensures |r.textures| == |paths|
    ensures st.texturesLoaded <= r.state.texturesLoaded
    ensures r.state.meshes == st.meshes && r.state.directory == st.directory
  {
    if paths == [] then Loaded([], st)
    else
      var prev := LoadTextures(st, paths[..|paths| - 1], typeName);
      var next := LoadTexture(prev.state, paths[|paths| - 1], typeName);
      Loaded(prev.textures + next.textures, next.state)
  }

  /** Paths that are all cached already: the cached textures are returned and nothing is loaded. */
  lemma {:induction false} LoadTexturesReuse(st: SceneState, paths: seq<string>, typeName: string)
    requires forall i :: 0 <= i < |paths| ==> Has(st.texturesLoaded, paths[i])
    ensures var r := LoadTextures(st, paths, typeName);
      && r.state == st
      && forall i :: 0 <= i < |paths| ==> r.textures[i] == st.texturesLoaded[FindPath(st.texturesLoaded, paths[i]).value]
  {
    if paths != [] {
      var last := paths[|paths| - 1];
      LoadTexturesReuse(st, paths[..|paths| - 1], typeName);
      assert Has(st.texturesLoaded, last);
      var k := FindPath(st.texturesLoaded, last).value;
      assert LoadTexture(st, last, typeName) == Loaded([st.texturesLoaded[k]], st);
    }
  }

  /**
   * The scene is left as it was exactly when the path is cached already, and
   * either way the returned texture is in the cache afterwards.
   */
  lemma LoadTextureCaches(st: SceneState, path: string, typeName: string)
    ensures var r := LoadTexture(st, path, typeName);
      && (r.state == st <==> Has(st.texturesLoaded, path))
      && r.textures[0] in r.state.texturesLoaded
  {
    var r := LoadTexture(st, path, typeName);
    if !Has(st.texturesLoaded, path) {
      assert |r.state.texturesLoaded| == |st.texturesLoaded| + 1;
    }
  }

  /** One texture per path, in the order of the paths. */
  lemma {:induction false} LoadTexturesPaths(st: SceneState, paths: seq<string>, typeName: string)
    ensures forall i :: 0 <= i < |paths| ==> LoadTextures(st, paths, typeName).textures[i].path == paths[i]
  {
    if paths != [] {
      var init := paths[..|paths| - 1];
      LoadTexturesPaths(st, init, typeName);
    }
  }

  /** Each texture returned is in the cache afterwards. */
  lemma {:induction false} LoadTexturesCached(st: SceneState, paths: seq<string>, typeName: string)
    ensures forall i :: 0 <= i < |paths| ==>
      LoadTextures(st, paths, typeName).textures[i] in LoadTextures(st, paths, typeName).state.texturesLoaded
  {
    if paths != [] {
      var init := paths[..|paths| - 1];
      LoadTexturesCached(st, init, typeName);
      var prev := LoadTextures(st, init, typeName);
      var next := LoadTexture(prev.state, paths[|paths| - 1], typeName);
      LoadTextureCaches(prev.state, paths[|paths| - 1], typeName);
      var r := LoadTextures(st, paths, typeName);
      forall i | 0 <= i < |paths|
        ensures r.textures[i] in r.state.texturesLoaded
      {
        if i < |init| {
          assert r.textures[i] == prev.textures[i];
          assert prev.textures[i] in prev.state.texturesLoaded;
        } else {
          assert r.textures[i] == next.textures[0];
        }
      }
    }
  }

  /** The scan of the cache stops at the first texture with the path. */
  lemma CacheHit(loaded: seq<Texture>, path: string, j: nat)
    requires j < |loaded| && loaded[j].path == path
    requires forall k :: 0 <= k < j ==> loaded[k].path != path
    ensures FindPath(loaded, path) == Some(j)
  {
    FindPathFirst(loaded, path);
  }

  /** A scan of the whole cache without a match means the path is not cached. */
  lemma CacheMiss(loaded: seq<Texture>, path: string)
    requires forall k :: 0 <= k < |loaded| ==> loaded[k].path != path
    ensures FindPath(loaded, path) == None
  {
  }

  /** One more path: the texture for it is appended and the state moves on. */
  lemma LoadTexturesStep(st: SceneState, paths: seq<string>, i: nat, typeName: string, prev: Loaded)
    requires i < |paths| && prev == LoadTextures(st, paths[..i], typeName)
    ensures LoadTextures(st, paths[..i + 1], typeName)
            == Loaded(prev.textures + LoadTexture(prev.state, paths[i], typeName).textures,
                      LoadTexture(prev.state, paths[i], typeName).state)
  {
    assert paths[..i + 1][..i] == paths[..i];
  }

  /** A path found at position j of the cache: the cached texture is appended and nothing else changes. */
  lemma CachedStep(st: SceneState, paths: seq<string>, i: nat, typeName: string, prev: Loaded, j: nat)
    requires i < |paths| && prev == LoadTextures(st, paths[..i], typeName)
    requires j < |prev.state.texturesLoaded| && prev.state.texturesLoaded[j].path == paths[i]
    requires forall k :: 0 <= k < j ==> prev.state.texturesLoaded[k].path != paths[i]
    ensures LoadTextures(st, paths[..i + 1], typeName)
            == Loaded(prev.textures + [prev.state.texturesLoaded[j]], prev.state)
  {
    LoadTexturesStep(st, paths, i, typeName, prev);
    CacheHit(prev.state.texturesLoaded, paths[i], j);
  }

  /** A path not in the cache: a texture under the next name is appended to both lists. */
  lemma UncachedStep(st: SceneState, paths: seq<string>, i: nat, typeName: string, prev: Loaded)
    requires i < |paths| && prev == LoadTextures(st, paths[..i], typeName)
    requires forall k :: 0 <= k < |prev.state.texturesLoaded| ==> prev.state.texturesLoaded[k].path != paths[i]
    ensures var texture := Texture(prev.state.nextTextureName, typeName, paths[i]);
      LoadTextures(st, paths[..i + 1], typeName)
      == Loaded(prev.textures + [texture],
                prev.state.(texturesLoaded := prev.state.texturesLoaded + [texture],
                            nextTextureName := prev.state.nextTextureName + 1))
  {
    LoadTexturesStep(st, paths, i, typeName, prev);
    CacheMiss(prev.state.texturesLoaded, paths[i]);
  }

  /** A texture that was cached before the call is returned as it was cached, whatever type is asked for. */
  lemma ReuseKeepsType(st: SceneState, path: string, typeName: string)
    requires Has(st.texturesLoaded, path)
    ensures LoadTexture(st, path, typeName).textures[0].typeName
            == st.texturesLoaded[FindPath(st.texturesLoaded, path).value].typeName
  {
  }

  /** A path not cached before is loaded under the next name, with the requested type, and cached. */
  lemma LoadNewTexture(st: SceneState, path: string, typeName: string)
    requires !Has(st.texturesLoaded, path)
    ensures var r := LoadTexture(st, path, typeName);
      && r.textures == [Texture(st.nextTextureName, typeName, path)]
      && r.state.texturesLoaded == st.texturesLoaded + r.textures
      && r.state.nextTextureName == st.nextTextureName + 1
  {
  }

  /** One load keeps the cache free of duplicate paths and names. */
  lemma LoadTextureKeepsCacheOk(st: SceneState, path: string, typeName: string)
    requires CacheOk(st)
    ensures CacheOk(LoadTexture(st, path, typeName).state)
  {
  }

  /** So does a whole call; hence each path ends up cached exactly once. */
  lemma {:induction false} LoadTexturesKeepsCacheOk(st: SceneState, paths: seq<string>, typeName: string)
    requires CacheOk(st)
    ensures CacheOk(LoadTextures(st, paths, typeName).state)
  {
    if paths != [] {
      var prev := LoadTextures(st, paths[..|paths| - 1], typeName);
      LoadTexturesKeepsCacheOk(st, paths[..|paths| - 1], typeName);
      LoadTextureKeepsCacheOk(prev.state, paths[|paths| - 1], typeName);
    }
  }

  /** One load keeps a cache without duplicate paths free of them. */
  lemma LoadTextureKeepsPathsUnique(st: SceneState, path: string, typeName: string)
    requires NoDupPaths(st.texturesLoaded)
    ensures NoDupPaths(LoadTexture(st, path, typeName).state.texturesLoaded)
  {
  }

  /** If the cache has no duplicate paths before a call, it has none after. */
  lemma {:induction false} LoadTexturesKeepsPathsUnique(st: SceneState, paths: seq<string>, typeName: string)
    requires NoDupPaths(st.texturesLoaded)
    ensures NoDupPaths(LoadTextures(st, paths, typeName).state.texturesLoaded)
  {
    if paths != [] {
      var prev := LoadTextures(st, paths[..|paths| - 1], typeName);
      LoadTexturesKeepsPathsUnique(st, paths[..|paths| - 1], typeName);
      LoadTextureKeepsPathsUnique(prev.state, paths[|paths| - 1], typeName);
    }
  }

  /** A fresh Scene's empty cache is well formed. */
  lemma EmptyCacheOk()
    ensures CacheOk(Empty)
  {
  }

  // ---------------------------------------------------------------------------
  // processMesh: vertices, indices and textures.

  /**
   * One vertex per imported vertex: its position, its normal and its first
   * texture coordinate set's (x, y), or (0, 0) when the mesh has none.
   */
  function Vertices(m: AiMesh): (vs: seq<Vertex>)
    requires |m.normals| == |m.vertices|
    requires m.textureCoords.Some? ==> |m.textureCoords.value| == |m.vertices|
    ensures |vs| == |m.vertices|
  {
    seq(|m.vertices|, i requires 0 <= i < |m.vertices| =>
      Vertex(m.vertices[i], m.normals[i],
             match m.textureCoords
             case Some(tc) => Vec2(tc[i].x, tc[i].y)
             case None => Vec2(0.0, 0.0)))
  }

  /** The indices of the faces, face after face. */
  function FaceIndices(faces: seq<AiFace>): (r: seq<nat>)
    ensures forall k :: 0 <= k < |faces| ==> |faces[k].indices| <= |r|
  {
    if faces == [] then [] else FaceIndices(faces[..|faces| - 1]) + faces[|faces| - 1].indices
  }

  /** Flattening distributes over concatenation of face lists. */
  lemma {:induction false} FaceIndicesAppend(a: seq<AiFace>, b: seq<AiFace>)
    ensures FaceIndices(a + b) == FaceIndices(a) + FaceIndices(b)
  {
    if b != [] {
      var init, last := b[..|b| - 1], b[|b| - 1];
      assert (a + b)[..|a + b| - 1] == a + init;
      FaceIndicesAppend(a, init);
      calc {
        FaceIndices(a + b);
        FaceIndices(a + init) + last.indices;
        FaceIndices(a) + FaceIndices(init) + last.indices;
        FaceIndices(a) + (FaceIndices(init) + last.indices);
      }
    } else {
      assert a + b == a;
    }
  }

  /** Face i's indices sit, in order, right after those of the faces before it. */
  lemma FaceIndicesAt(faces: seq<AiFace>, i: nat)
    requires i < |faces|
    ensures var start := |FaceIndices(faces[..i])|;
      && start + |faces[i].indices| <= |FaceIndices(faces)|
      && FaceIndices(faces)[start..start + |faces[i].indices|] == faces[i].indices
  {
    assert faces[..i + 1][..i] == faces[..i];
    assert faces == faces[..i + 1] + faces[i + 1..];
    FaceIndicesAppend(faces[..i + 1], faces[i + 1..]);
  }

  /** After triangulation every face has three indices, and so there are three per face. */
  lemma {:induction false} TriangulatedIndexCount(faces: seq<AiFace>)
    requires forall f :: f in faces ==> |f.indices| == 3
    ensures |FaceIndices(faces)| == 3 * |faces|
  {
    if faces != [] {
      TriangulatedIndexCount(faces[..|faces| - 1]);
    }
  }

  /** The mesh processMesh builds and the state after it. */
  datatype Built = Built(mesh: MeshData, state: SceneState)

  /**
   * processMesh: vertices, the flattened face indices, and, when textures are
   * wanted, the material's diffuse maps followed by its specular maps.
   */
  function ProcessMeshF(st: SceneState, m: AiMesh, scene: AiScene, withTexture: bool): (r: Built)
    requires MeshOk(m, |scene.materials|)
    ensures r.state.meshes == st.meshes && r.state.directory == st.directory
  {
    if m.materialIndex >= 0 && withTexture then
      var material := scene.materials[m.materialIndex];
      var diffuseMaps := LoadTextures(st, material.Textures(DiffuseMap), DiffuseName);
      var specularMaps := LoadTextures(diffuseMaps.state, material.Textures(SpecularMap), SpecularName);
      Built(MeshData(Vertices(m), FaceIndices(m.faces), diffuseMaps.textures + specularMaps.textures),
            specularMaps.state)
    else
      Built(MeshData(Vertices(m), FaceIndices(m.faces), []), st)
  }

  /**
   * The mesh has the imported mesh's vertices and its flattened face indices;
   * the scene's meshes and directory are untouched and its texture cache only
   * grows; without textures nothing is loaded.
   */
  lemma ProcessMeshBuilds(st: SceneState, m: AiMesh, scene: AiScene, withTexture: bool)
    requires MeshOk(m, |scene.materials|)
    ensures var r := ProcessMeshF(st, m, scene, withTexture);
      && r.mesh.vertices == Vertices(m) && r.mesh.indices == FaceIndices(m.faces)
      && r.state.meshes == st.meshes && r.state.directory == st.directory
      && st.texturesLoaded <= r.state.texturesLoaded
      && (!withTexture ==> r.mesh.textures == [] && r.state == st)
  {
  }

  /** processMesh with textures: the diffuse maps are loaded first, then the specular maps. */
  lemma ProcessMeshLoads(st: SceneState, m: AiMesh, scene: AiScene)
    requires MeshOk(m, |scene.materials|)
    ensures var material := scene.materials[m.materialIndex];
      var d := LoadTextures(st, material.Textures(DiffuseMap), DiffuseName);
      var sp := LoadTextures(d.state, material.Textures(SpecularMap), SpecularName);
      ProcessMeshF(st, m, scene, true) == Built(MeshData(Vertices(m), FaceIndices(m.faces), d.textures + sp.textures), sp.state)
  {
  }

  /**
   * With textures, a mesh gets one texture per path its material lists: those
   * of the diffuse maps, then those of the specular maps.
   */
  lemma ProcessMeshTextures(st: SceneState, m: AiMesh, scene: AiScene, material: AiMaterial, r: Built)
    requires MeshOk(m, |scene.materials|) && material == scene.materials[m.materialIndex]
    requires r == ProcessMeshF(st, m, scene, true)
    ensures |r.mesh.textures| == |material.diffuse| + |material.specular|
    ensures forall i :: 0 <= i < |material.diffuse| ==> r.mesh.textures[i].path == material.diffuse[i]
    ensures forall i :: 0 <= i < |material.specular| ==>
      r.mesh.textures[|material.diffuse| + i].path == material.specular[i]
  {
    var diffuse, specular := material.diffuse, material.specular;
    assert material.Textures(DiffuseMap) == diffuse && material.Textures(SpecularMap) == specular;
    var diffuseMaps := LoadTextures(st, diffuse, DiffuseName);
    var specularMaps := LoadTextures(diffuseMaps.state, specular, SpecularName);
    ProcessMeshLoads(st, m, scene);
    LoadTexturesPaths(st, diffuse, DiffuseName);
    LoadTexturesPaths(diffuseMaps.state, specular, SpecularName);
    PathsOfConcat(diffuseMaps.textures, specularMaps.textures, diffuse, specular);
  }

  /** Textures listed path by path, concatenated, are listed by the concatenated paths. */
  lemma PathsOfConcat(xs: seq<Texture>, ys: seq<Texture>, a: seq<string>, b: seq<string>)
    requires |xs| == |a| && |ys| == |b|
    requires forall i :: 0 <= i < |a| ==> xs[i].path == a[i]
    requires forall i :: 0 <= i < |b| ==> ys[i].path == b[i]
    ensures forall i :: 0 <= i < |a| ==> (xs + ys)[i].path == a[i]
    ensures forall i :: 0 <= i < |b| ==> (xs + ys)[|a| + i].path == b[i]
  {
  }

  // ---------------------------------------------------------------------------
  // processNode: the scene graph in pre-order.

  /** The mesh indices of a subtree in pre-order: the node's own, then each child's subtree in turn. */
  function PreOrder(node: AiNode): (r: seq<nat>)
    decreases node
    ensures node.meshes <= r
  {
    node.meshes + PreOrderAll(node.children)
  }

  function PreOrderAll(children: seq<AiNode>): (r: seq<nat>)
    decreases children
    ensures forall k :: 0 <= k < |children| ==> |children[k].meshes| <= |r|
  {
    if children == [] then [] else PreOrderAll(children[..|children| - 1]) + PreOrder(children[|children| - 1])
  }

  /** Processing the meshes a node lists, in order, appending each. */
  function ProcessMeshesF(st: SceneState, refs: seq<nat>, scene: AiScene, withTexture: bool): (r: SceneState)
    requires WellFormed(scene)
    requires forall k :: 0 <= k < |refs| ==> refs[k] < |scene.meshes|
    ensures st.meshes <= r.meshes && |r.meshes| == |st.meshes| + |refs|
    ensures r.directory == st.directory
  {
    if refs == [] then st
    else
      var prev := ProcessMeshesF(st, refs[..|refs| - 1], scene, withTexture);
      var b := ProcessMeshF(prev, scene.meshes[refs[|refs| - 1]], scene, withTexture);
      b.state.(meshes := b.state.meshes + [b.mesh])
  }

  function ProcessNodeF(st: SceneState, node: AiNode, scene: AiScene, withTexture: bool): (r: SceneState)
    requires WellFormed(scene) && NodeOk(node, |scene.meshes|)
    decreases node
    ensures st.meshes <= r.meshes && |r.meshes| == |st.meshes| + |PreOrder(node)|
    ensures r.directory == st.directory
  {
    ProcessChildrenF(ProcessMeshesF(st, node.meshes, scene, withTexture), node.children, scene, withTexture)
  }

  function ProcessChildrenF(st: SceneState, children: seq<AiNode>, scene: AiScene, withTexture: bool): (r: SceneState)
    requires WellFormed(scene) && forall c :: c in children ==> NodeOk(c, |scene.meshes|)
    decreases children
    ensures st.meshes <= r.meshes && |r.meshes| == |st.meshes| + |PreOrderAll(children)|
    ensures r.directory == st.directory
  {
    if children == [] then st
    else
      var last := children[|children| - 1];
      ProcessNodeF(ProcessChildrenF(st, children[..|children| - 1], scene, withTexture), last, scene, withTexture)
  }

  /** One more mesh reference of a node: its mesh is converted and appended. */
  lemma ProcessMeshesStep(st: SceneState, refs: seq<nat>, i: nat, scene: AiScene, withTexture: bool,
                          prev: SceneState, b: Built)
    requires WellFormed(scene)
    requires forall k :: 0 <= k < |refs| ==> refs[k] < |scene.meshes|
    requires i < |refs| && prev == ProcessMeshesF(st, refs[..i], scene, withTexture)
    requires b == ProcessMeshF(prev, scene.meshes[refs[i]], scene, withTexture)
    ensures ProcessMeshesF(st, refs[..i + 1], scene, withTexture) == b.state.(meshes := b.state.meshes + [b.mesh])
  {
    assert refs[..i + 1][..i] == refs[..i];
  }

  /** One more child of a node: its whole subtree is processed. */
  lemma ProcessChildrenStep(st: SceneState, children: seq<AiNode>, i: nat, scene: AiScene, withTexture: bool,
                            prev: SceneState, next: SceneState)
    requires WellFormed(scene) && forall c :: c in children ==> NodeOk(c, |scene.meshes|)
    requires i < |children| && prev == ProcessChildrenF(st, children[..i], scene, withTexture)
    requires next == ProcessNodeF(prev, children[i], scene, withTexture)
    ensures ProcessChildrenF(st, children[..i + 1], scene, withTexture) == next
  {
    assert children[..i + 1][..i] == children[..i];
  }

  /** The mesh built from an imported mesh has its vertices and its flattened indices. */
  predicate Converted(d: MeshData, m: AiMesh)
    requires |m.normals| == |m.vertices|
    requires m.textureCoords.Some? ==> |m.textureCoords.value| == |m.vertices|
  {
    d.vertices == Vertices(m) && d.indices == FaceIndices(m.faces)
  }

  /**
   * The meshes appended for a list of mesh indices: one per index, in order,
   * each converted from the mesh the index names.
   */
  predicate AppendsFor(st: SceneState, r: SceneState, refs: seq<nat>, scene: AiScene)
    requires WellFormed(scene)
  {
    && st.meshes <= r.meshes
    && |r.meshes| == |st.meshes| + |refs|
    && r.directory == st.directory
    && st.texturesLoaded <= r.texturesLoaded
    && forall k :: 0 <= k < |refs| ==>
         refs[k] < |scene.meshes| && Converted(r.meshes[|st.meshes| + k], scene.meshes[refs[k]])
  }

  /** Appending for refs and then for more is appending for their concatenation. */
  lemma AppendsForTrans(s0: SceneState, s1: SceneState, s2: SceneState, a: seq<nat>, b: seq<nat>, scene: AiScene)
    requires WellFormed(scene)
    requires AppendsFor(s0, s1, a, scene) && AppendsFor(s1, s2, b, scene)
    ensures AppendsFor(s0, s2, a + b, scene)
  {
    forall k | 0 <= k < |a + b|
      ensures (a + b)[k] < |scene.meshes| && Converted(s2.meshes[|s0.meshes| + k], scene.meshes[(a + b)[k]])
    {
      if k < |a| {
        assert s2.meshes[|s0.meshes| + k] == s1.meshes[|s0.meshes| + k];
      } else {
        assert (a + b)[k] == b[k - |a|];
      }
    }
  }

  lemma {:induction false} ProcessMeshesAppends(st: SceneState, refs: seq<nat>, scene: AiScene, withTexture: bool)
    requires WellFormed(scene)
    requires forall k :: 0 <= k < |refs| ==> refs[k] < |scene.meshes|
    ensures AppendsFor(st, ProcessMeshesF(st, refs, scene, withTexture), refs, scene)
  {
    if refs != [] {
      var init := refs[..|refs| - 1];
      var prev := ProcessMeshesF(st, init, scene, withTexture);
      ProcessMeshesAppends(st, init, scene, withTexture);
      var r := ProcessMeshesF(st, refs, scene, withTexture);
      assert AppendsFor(prev, r, [refs[|refs| - 1]], scene);
      AppendsForTrans(st, prev, r, init, [refs[|refs| - 1]], scene);
      assert init + [refs[|refs| - 1]] == refs;
    }
  }

  /**
   * processNode appends one mesh per entry of the subtree's pre-order: the
   * node's own meshes first, then each child's subtree, children in order.
   */
  lemma {:induction false} ProcessNodePreOrder(st: SceneState, node: AiNode, scene: AiScene, withTexture: bool)
    requires WellFormed(scene) && NodeOk(node, |scene.meshes|)
    ensures AppendsFor(st, ProcessNodeF(st, node, scene, withTexture), PreOrder(node), scene)
    decreases node
  {
    var mid := ProcessMeshesF(st, node.meshes, scene, withTexture);
    ProcessMeshesAppends(st, node.meshes, scene, withTexture);
    ProcessChildrenPreOrder(mid, node.children, scene, withTexture);
    AppendsForTrans(st, mid, ProcessNodeF(st, node, scene, withTexture), node.meshes, PreOrderAll(node.children), scene);
  }

  lemma {:induction false} ProcessChildrenPreOrder(st: SceneState, children: seq<AiNode>, scene: AiScene, withTexture: bool)
    requires WellFormed(scene) && forall c :: c in children ==> NodeOk(c, |scene.meshes|)
    ensures AppendsFor(st, ProcessChildrenF(st, children, scene, withTexture), PreOrderAll(children), scene)
    decreases children
  {
    if children != [] {
      var init, last := children[..|children| - 1], children[|children| - 1];
      var mid := ProcessChildrenF(st, init, scene, withTexture);
      ProcessChildrenPreOrder(st, init, scene, withTexture);
      ProcessNodePreOrder(mid, last, scene, withTexture);
      AppendsForTrans(st, mid, ProcessChildrenF(st, children, scene, withTexture), PreOrderAll(init), PreOrder(last), scene);
    }
  }

  /** Processing one mesh keeps the cache well formed. */
  lemma ProcessMeshKeepsCacheOk(st: SceneState, m: AiMesh, scene: AiScene, withTexture: bool)
    requires MeshOk(m, |scene.materials|) && CacheOk(st)
    ensures CacheOk(ProcessMeshF(st, m, scene, withTexture).state)
  {
    if withTexture {
      var material := scene.materials[m.materialIndex];
      var d := LoadTextures(st, material.Textures(DiffuseMap), DiffuseName);
      ProcessMeshLoads(st, m, scene);
      LoadTexturesKeepsCacheOk(st, material.Textures(DiffuseMap), DiffuseName);
      LoadTexturesKeepsCacheOk(d.state, material.Textures(SpecularMap), SpecularName);
    }
  }

  lemma {:induction false} ProcessMeshesKeepsCacheOk(st: SceneState, refs: seq<nat>, scene: AiScene, withTexture: bool)
    requires WellFormed(scene)
    requires forall k :: 0 <= k < |refs| ==> refs[k] < |scene.meshes|
    requires CacheOk(st)
    ensures CacheOk(ProcessMeshesF(st, refs, scene, withTexture))
  {
    if refs != [] {
      var prev := ProcessMeshesF(st, refs[..|refs| - 1], scene, withTexture);
      ProcessMeshesKeepsCacheOk(st, refs[..|refs| - 1], scene, withTexture);
      ProcessMeshKeepsCacheOk(prev, scene.meshes[refs[|refs| - 1]], scene, withTexture);
    }
  }

  /** Processing a subtree keeps the cache well formed. */
  lemma {:induction false} ProcessNodeKeepsCacheOk(st: SceneState, node: AiNode, scene: AiScene, withTexture: bool)
    requires WellFormed(scene) && NodeOk(node, |scene.meshes|) && CacheOk(st)
    ensures CacheOk(ProcessNodeF(st, node, scene, withTexture))
    decreases node
  {
    ProcessMeshesKeepsCacheOk(st, node.meshes, scene, withTexture);
    ProcessChildrenKeepsCacheOk(ProcessMeshesF(st, node.meshes, scene, withTexture), node.children, scene, withTexture);
  }

  lemma {:induction false} ProcessChildrenKeepsCacheOk(st: SceneState, children: seq<AiNode>, scene: AiScene, withTexture: bool)
    requires WellFormed(scene) && (forall c :: c in children ==> NodeOk(c, |scene.meshes|)) && CacheOk(st)
    ensures CacheOk(ProcessChildrenF(st, children, scene, withTexture))
    decreases children
  {
    if children != [] {
      var init := children[..|children| - 1];
      ProcessChildrenKeepsCacheOk(st, init, scene, withTexture);
      ProcessNodeKeepsCacheOk(ProcessChildrenF(st, init, scene, withTexture), children[|children| - 1], scene, withTexture);
    }
  }

  // ---------------------------------------------------------------------------
  // loadModel: the directory and the failure path.

  /** The position of the last '/' in the path, if there is one. */
  function LastSlash(path: string): (r: Option<nat>)
    ensures r.Some? ==> r.value < |path| && path[r.value] == '/'
    ensures r.Some? ==> forall k :: r.value < k < |path| ==> path[k] != '/'
    ensures r.None? <==> '/' !in path
  {
    if path == [] then None
    else if path[|path| - 1] == '/' then Some(|path| - 1)
    else LastSlash(path[..|path| - 1])
  }

  /** path.substr(0, path.find_last_of('/')): the text before the last '/', or the whole path without one. */
  function DirectoryOf(path: string): (dir: string)
    ensures dir <= path
  {
    match LastSlash(path)
    case Some(k) => path[..k]
    case None => path
  }

  /** The directory of a file named inside a directory is that directory. */
  lemma DirectoryOfJoin(dir: string, file: string)
    requires '/' !in file
    ensures DirectoryOf(dir + "/" + file) == dir
  {
    var path := dir + "/" + file;
    assert path[|dir|] == '/';
    assert forall k :: |dir| < k < |path| ==> path[k] == file[k - |dir| - 1];
    var k := LastSlash(path).value;
    assert path[..k] == dir;
  }

  /** A path without any '/' is its own directory. */
  lemma DirectoryOfBareName(path: string)
    requires '/' !in path
    ensures DirectoryOf(path) == path
  {
  }

  /** The import did not give a usable scene: no scene, an incomplete one, or one without a root. */
  predicate ImportFailed(imported: Option<AiScene>): (r: bool)
    ensures !r ==> imported.Some? && !imported.value.incomplete && imported.value.root.Some?
  {
    imported.None? || imported.value.incomplete || imported.value.root.None?
  }

  /** A scene the importer accepts for this path (complete, with a root) is one the loader can rely on. */
  predicate Importable(readFile: string -> Option<AiScene>, path: string) {
    !ImportFailed(readFile(path)) ==> WellFormed(readFile(path).value)
  }

  function LoadModelF(st: SceneState, path: string, imported: Option<AiScene>, withTexture: bool): (r: SceneState)
    requires !ImportFailed(imported) ==> WellFormed(imported.value)
    ensures st.meshes <= r.meshes
  {
    if ImportFailed(imported) then st
    else ProcessNodeF(st.(directory := DirectoryOf(path)), imported.value.root.value, imported.value, withTexture)
  }

  /** A failed import leaves the scene exactly as it was. */
  lemma LoadModelFailure(st: SceneState, path: string, imported: Option<AiScene>, withTexture: bool)
    requires !ImportFailed(imported) ==> WellFormed(imported.value)
    requires ImportFailed(imported)
    ensures LoadModelF(st, path, imported, withTexture) == st
  {
  }

  /**
   * A successful import sets the directory from the path and appends the
   * meshes of the scene graph in pre-order, keeping the ones already loaded.
   */
  lemma LoadModelSuccess(st: SceneState, path: string, imported: Option<AiScene>, withTexture: bool)
    requires !ImportFailed(imported) ==> WellFormed(imported.value)
    requires !ImportFailed(imported)
    ensures var r := LoadModelF(st, path, imported, withTexture);
      && r.directory == DirectoryOf(path)
      && AppendsFor(st.(directory := r.directory), r, PreOrder(imported.value.root.value), imported.value)
  {
    var scene := imported.value;
    ProcessNodePreOrder(st.(directory := DirectoryOf(path)), scene.root.value, scene, withTexture);
  }

  /** The Scene constructors: loadModel on each path in turn. */
  function LoadAllF(st: SceneState, paths: seq<string>, readFile: string -> Option<AiScene>, withTexture: bool): (r: SceneState)
    requires forall i :: 0 <= i < |paths| ==> Importable(readFile, paths[i])
    ensures st.meshes <= r.meshes
  {
    if paths == [] then st
    else
      var path := paths[|paths| - 1];
      assert Importable(readFile, path);
      LoadModelF(LoadAllF(st, paths[..|paths| - 1], readFile, withTexture), path, readFile(path), withTexture)
  }

  /** Loading a model keeps the cache well formed, whether the import fails or not. */
  lemma LoadModelKeepsCacheOk(st: SceneState, path: string, imported: Option<AiScene>, withTexture: bool)
    requires !ImportFailed(imported) ==> WellFormed(imported.value)
    requires CacheOk(st)
    ensures CacheOk(LoadModelF(st, path, imported, withTexture))
  {
    if !ImportFailed(imported) {
      ProcessNodeKeepsCacheOk(st.(directory := DirectoryOf(path)), imported.value.root.value, imported.value, withTexture);
    }
  }

  /** So does loading a list of models. */
  lemma {:induction false} LoadAllKeepsCacheOk(st: SceneState, paths: seq<string>, readFile: string -> Option<AiScene>, withTexture: bool)
    requires forall i :: 0 <= i < |paths| ==> Importable(readFile, paths[i])
    requires CacheOk(st)
    ensures CacheOk(LoadAllF(st, paths, readFile, withTexture))
  {
    if paths != [] {
      var path := paths[|paths| - 1];
      assert Importable(readFile, path);
      LoadAllKeepsCacheOk(st, paths[..|paths| - 1], readFile, withTexture);
      LoadModelKeepsCacheOk(LoadAllF(st, paths[..|paths| - 1], readFile, withTexture), path, readFile(path), withTexture);
    }
  }

  // ---------------------------------------------------------------------------
  // The Scene class.

  /** The values of a list of meshes. */
  function Contents(ms: seq<Mesh>): (ds: seq<MeshData>)
    ensures |ds| == |ms|
  {
    seq(|ms|, i requires 0 <= i < |ms| => ms[i].Data())
  }

  /** Appending a mesh appends its value. */
  lemma ContentsAppend(ms: seq<Mesh>, m: Mesh)
    ensures Contents(ms + [m]) == Contents(ms) + [m.Data()]
  {
  }

  /** The vertex loop of processMesh: position, normal and first UV set, or (0, 0). */
  method CopyVertices(m: AiMesh) returns (vertices: seq<Vertex>)
    requires |m.normals| == |m.vertices|
    requires m.textureCoords.Some? ==> |m.textureCoords.value| == |m.vertices|
    ensures vertices == Vertices(m)
  {
    vertices := [];
    var i := 0;
    while i < |m.vertices|
      invariant i <= |m.vertices|
      invariant vertices == Vertices(m)[..i]
    {
      var uv := Vec2(0.0, 0.0);
      if m.textureCoords.Some? {
        uv := Vec2(m.textureCoords.value[i].x, m.textureCoords.value[i].y);
      }
      vertices := vertices + [Vertex(m.vertices[i], m.normals[i], uv)];
      i := i + 1;
    }
  }

  /** The index loop of processMesh: every index of every face, in order. */
  method CopyIndices(faces: seq<AiFace>) returns (indices: seq<nat>)
    ensures indices == FaceIndices(faces)
  {
    indices := [];
    var i := 0;
    while i < |faces|
      invariant i <= |faces|
      invariant indices == FaceIndices(faces[..i])
    {
      var face := faces[i];
      var j := 0;
      while j < |face.indices|
        invariant j <= |face.indices|
        invariant indices == FaceIndices(faces[..i]) + face.indices[..j]
      {
        indices := indices + [face.indices[j]];
        j := j + 1;
      }
      assert faces[..i + 1][..i] == faces[..i];
      i := i + 1;
    }
    assert faces[..i] == faces;
  }

  class Scene {
    const readFile: string -> Option<AiScene>
    var meshes: seq<Mesh>
    var directory: string
    var texturesLoaded: seq<Texture>
    /** The name glGenTextures hands out next. */
    var nextTextureName: nat

    ghost function State(): SceneState
      reads this
    {
      SceneState(Contents(meshes), directory, texturesLoaded, nextTextureName)
    }

    /** Scene(path_list): every model loaded with its textures. */
    constructor (pathList: seq<string>, readFile: string -> Option<AiScene>)
      requires forall i :: 0 <= i < |pathList| ==> Importable(readFile, pathList[i])
      ensures State() == LoadAllF(Empty, pathList, readFile, true)
      ensures CacheOk(State())
    {
      this.readFile := readFile;
      meshes, directory, texturesLoaded, nextTextureName := [], "", [], 1;
      new;
      LoadPaths(pathList, true);
      EmptyCacheOk();
      LoadAllKeepsCacheOk(Empty, pathList, readFile, true);
    }

    /** Scene(path_list, with_texture). */
    constructor WithTexture(pathList: seq<string>, readFile: string -> Option<AiScene>, withTexture: bool)
      requires forall i :: 0 <= i < |pathList| ==> Importable(readFile, pathList[i])
      ensures State() == LoadAllF(Empty, pathList, readFile, withTexture)
      ensures CacheOk(State())
    {
      this.readFile := readFile;
      meshes, directory, texturesLoaded, nextTextureName := [], "", [], 1;
      new;
      LoadPaths(pathList, withTexture);
      EmptyCacheOk();
      LoadAllKeepsCacheOk(Empty, pathList, readFile, withTexture);
    }

    /** The loop both constructors run. */
    method LoadPaths(pathList: seq<string>, withTexture: bool)
      requires forall i :: 0 <= i < |pathList| ==> Importable(readFile, pathList[i])
      modifies this
      ensures State() == LoadAllF(old(State()), pathList, readFile, withTexture)
    {
      var i := 0;
      while i < |pathList|
        invariant i <= |pathList|
        invariant State() == LoadAllF(old(State()), pathList[..i], readFile, withTexture)
      {
        LoadModel(pathList[i], withTexture);
        assert pathList[..i + 1][..i] == pathList[..i];
        i := i + 1;
      }
      assert pathList[..i] == pathList;
    }

    method LoadModel(path: string, withTexture: bool := true)
      requires Importable(readFile, path)
      modifies this
      ensures State() == LoadModelF(old(State()), path, readFile(path), withTexture)
    {
      var scene := readFile(path);
      if scene.None? || scene.value.incomplete || scene.value.root.None? {
        return;
      }
      directory := DirectoryOf(path);
      ProcessNode(scene.value.root.value, scene.value, withTexture);
    }

    method ProcessNode(node: AiNode, scene: AiScene, withTexture: bool := true)
      requires WellFormed(scene) && NodeOk(node, |scene.meshes|)
      modifies this
      ensures State() == ProcessNodeF(old(State()), node, scene, withTexture)
      decreases node
    {
      ProcessMeshes(node.meshes, scene, withTexture);
      ghost var afterMeshes := State();
      var children := node.children;
      assert forall c :: c in children ==> NodeOk(c, |scene.meshes|);
      var i := 0;
      while i < |children|
        invariant i <= |children|
        invariant State() == ProcessChildrenF(afterMeshes, children[..i], scene, withTexture)
      {
        ghost var prev := State();
        var child := children[i];
        assert child in children;
        ProcessNode(child, scene, withTexture);
        ProcessChildrenStep(afterMeshes, children, i, scene, withTexture, prev, State());
        i := i + 1;
      }
      assert children[..i] == children;
    }

    /** The first loop of processNode: each mesh the node lists is processed and appended in turn. */
    method ProcessMeshes(refs: seq<nat>, scene: AiScene, withTexture: bool)
      requires WellFormed(scene) && forall k :: 0 <= k < |refs| ==> refs[k] < |scene.meshes|
      modifies this
      ensures State() == ProcessMeshesF(old(State()), refs, scene, withTexture)
    {
      var i := 0;
      while i < |refs|
        invariant i <= |refs|
        invariant State() == ProcessMeshesF(old(State()), refs[..i], scene, withTexture)
      {
        ghost var prev := State();
        var mesh := ProcessMesh(scene.meshes[refs[i]], scene, withTexture);
        ProcessMeshesStep(old(State()), refs, i, scene, withTexture, prev, Built(mesh.Data(), State()));
        ContentsAppend(meshes, mesh);
        meshes := meshes + [mesh];
        i := i + 1;
      }
      assert refs[..i] == refs;
    }

    method ProcessMesh(m: AiMesh, scene: AiScene, withTexture: bool := true) returns (mesh: Mesh)
      requires MeshOk(m, |scene.materials|)
      modifies this
      ensures var b := ProcessMeshF(old(State()), m, scene, withTexture);
        mesh.Data() == b.mesh && State() == b.state
    {
      var vertices := CopyVertices(m);
      var indices := CopyIndices(m.faces);
      var textures: seq<Texture> := [];
      if m.materialIndex >= 0 && withTexture {
        var material := scene.materials[m.materialIndex];
        ghost var st0 := State();
        var diffuseMaps := LoadMaterialTextures(material, DiffuseMap, DiffuseName);
        ghost var st1 := State();
        textures := textures + diffuseMaps;
        assert textures == diffuseMaps;
        var specularMaps := LoadMaterialTextures(material, SpecularMap, SpecularName);
        textures := textures + specularMaps;
        ghost var d := LoadTextures(st0, material.Textures(DiffuseMap), DiffuseName);
        assert d.state == st1;
        ghost var sp := LoadTextures(d.state, material.Textures(SpecularMap), SpecularName);
        assert textures == d.textures + sp.textures && State() == sp.state;
        ProcessMeshLoads(st0, m, scene);
      }
      mesh := new Mesh(vertices, indices, textures);
    }

    /**
     * The inner loop of loadMaterialTextures: the first cached texture loaded
     * from the path, found by a linear scan that stops at the first hit.
     */
    method SearchCache(path: string) returns (found: Option<nat>)
      ensures found.Some? ==> found.value < |texturesLoaded| && texturesLoaded[found.value].path == path
      ensures found.Some? ==> forall k :: 0 <= k < found.value ==> texturesLoaded[k].path != path
      ensures found.None? ==> forall k :: 0 <= k < |texturesLoaded| ==> texturesLoaded[k].path != path
    {
      var j := 0;
      while j < |texturesLoaded|
        invariant j <= |texturesLoaded|
        invariant forall k :: 0 <= k < j ==> texturesLoaded[k].path != path
      {
        if texturesLoaded[j].path == path {
          return Some(j);
        }
        j := j + 1;
      }
      return None;
    }

    method LoadMaterialTextures(material: AiMaterial, kind: TextureType, typeName: string) returns (textures: seq<Texture>)
      modifies this
      ensures Loaded(textures, State()) == LoadTextures(old(State()), material.Textures(kind), typeName)
    {
      var paths := material.Textures(kind);
      ghost var start := State();
      textures := [];
      var i := 0;
      while i < |paths|
        invariant i <= |paths|
        invariant Loaded(textures, State()) == LoadTextures(start, paths[..i], typeName)
      {
        ghost var prev := Loaded(textures, State());
        LoadTexturesStep(start, paths, i, typeName, prev);
        var texture := LoadPath(paths[i], typeName);
        textures := textures + [texture];
        i := i + 1;
      }
      assert paths[..i] == paths;
    }

    /**
     * The body of loadMaterialTextures' loop for one path: the cached texture
     * when the scan finds the path, otherwise a new texture under the next
     * name, appended to the cache.
     */
    method LoadPath(path: string, typeName: string) returns (texture: Texture)
      modifies this
      ensures Loaded([texture], State()) == LoadTexture(old(State()), path, typeName)
    {
      var cached := SearchCache(path);
      if cached.Some? {
        CacheHit(texturesLoaded, path, cached.value);
        texture := texturesLoaded[cached.value];
      } else {
        CacheMiss(texturesLoaded, path);
        texture := Texture(nextTextureName, typeName, path);
        nextTextureName := nextTextureName + 1;
        texturesLoaded := texturesLoaded + [texture];
      }
    }
  }
}
