/** A model: an ordered list of meshes with one world transform, and the conversion of an
    imported scene (materials, a node tree, raw meshes) into that list. The importer's
    scene is given as plain datatypes; creating a mesh's GPU buffers is not modelled, so a
    mesh is the record of what it is built from: vertices, indices and a texture id. */
module Meshes {
  import opened Wrappers

  /** Floats are only copied here, never computed with, so they are modelled as reals. */
  datatype Vec2 = Vec2(x: real, y: real)
  datatype Vec3 = Vec3(x: real, y: real, z: real)

  /** Vertex: position, colour and texture coordinate. */
  datatype Vertex = Vertex(pos: Vec3, col: Vec3, tex: Vec2)

  /** glm::mat4, as its sixteen entries in column order. */
  const Identity: seq<real> :=
    [1.0, 0.0, 0.0, 0.0,  0.0, 1.0, 0.0, 0.0,  0.0, 0.0, 1.0, 0.0,  0.0, 0.0, 0.0, 1.0]
  type Mat4 = m: seq<real> | |m| == 16 witness Identity

  /** What a mesh is built from: its vertices, its index list and the texture id it draws with. */
  datatype Mesh = Mesh(vertices: seq<Vertex>, indices: seq<nat>, texId: int)

  // ---------------------------------------------------------------------------
  // The imported scene
  // ---------------------------------------------------------------------------

  /** aiFace: the vertex indices of one face. */
  type Face = seq<nat>

  /** aiMesh: positions, the optional first UV channel, faces and a material index. */
  datatype RawMesh = RawMesh(
    positions: seq<Vec3>,
    textureCoords0: Option<seq<Vec3>>,
    faces: seq<Face>,
    materialIndex: nat)

  /** aiMaterial: how many diffuse textures it has, and the path GetTexture yields for the
      first one (None when that lookup does not succeed). */
  datatype Material = Material(diffuseTextureCount: nat, diffusePath: Option<string>)

  /** aiNode: indices into the scene's meshes, and child nodes. */
  datatype Node = Node(meshes: seq<nat>, children: seq<Node>)

  /** aiScene: the meshes and materials the nodes refer to. */
  datatype Scene = Scene(meshes: seq<RawMesh>, materials: seq<Material>)

  // ---------------------------------------------------------------------------
  // Materials
  // ---------------------------------------------------------------------------

  /** The position of the last backslash in `s`, or -1 when there is none
      (rfind's npos narrowed to int). */
  function LastBackslash(s: string): (r: int)
    ensures -1 <= r < |s|
    ensures r >= 0 ==> s[r] == '\\'
    ensures forall k :: r < k < |s| ==> s[k] != '\\'
  {
    if |s| == 0 then -1
    else if s[|s| - 1] == '\\' then |s| - 1
    else LastBackslash(s[..|s| - 1])
  }

  /** The file name kept for a texture path: what follows the last backslash, or the whole
      path when it has none. A forward slash is not a separator. */
  function FileName(path: string): (r: string)
    ensures '\\' !in r
    ensures |r| <= |path| && path == path[..|path| - |r|] + r
    ensures |r| < |path| ==> path[|path| - |r| - 1] == '\\'
    ensures '\\' !in path ==> r == path
  {
    path[LastBackslash(path) + 1..]
  }

  /** Taking the file name of a file name changes nothing. */
  lemma FileNameIdempotent(path: string)
    ensures FileName(FileName(path)) == FileName(path)
  {
    var r := FileName(path);
    assert '\\' !in r;
  }

  /** A path with forward slashes only is kept whole. */
  lemma ForwardSlashIsNotSeparator()
    ensures FileName("textures/wood.png") == "textures/wood.png"
  {
    assert forall k :: 0 <= k < |"textures/wood.png"| ==> "textures/wood.png"[k] != '\\';
  }

  /** The entry LoadMaterials stores for one material. */
  function TextureName(material: Material): (r: string)
    ensures (material.diffuseTextureCount == 0 || material.diffusePath.None?) ==> r == ""
    ensures material.diffuseTextureCount > 0 && material.diffusePath.Some? ==>
              r == FileName(material.diffusePath.value)
  {
    if material.diffuseTextureCount > 0 && material.diffusePath.Some? then
      FileName(material.diffusePath.value)
    else
      ""
  }

  /** LoadMaterials: one entry per material, written in place, empty unless the material
      has a diffuse texture whose path lookup succeeds. */
  method LoadMaterials(scene: Scene) returns (textureList: seq<string>)
    ensures |textureList| == |scene.materials|
    ensures forall i :: 0 <= i < |textureList| ==> textureList[i] == TextureName(scene.materials[i])
    ensures forall i :: 0 <= i < |textureList| ==> '\\' !in textureList[i]
  {
    textureList := seq(|scene.materials|, _ => "");
    for i := 0 to |scene.materials|
      invariant |textureList| == |scene.materials|
      invariant forall j :: 0 <= j < i ==> textureList[j] == TextureName(scene.materials[j])
    {
      var material := scene.materials[i];
      textureList := textureList[i := ""];
      if material.diffuseTextureCount != 0 {
        if material.diffusePath.Some? {
          var path := material.diffusePath.value;
          var idx := LastBackslash(path);
          var fileName := path[idx + 1..];
          textureList := textureList[i := fileName];
        }
      }
    }
  }

  // ---------------------------------------------------------------------------
  // Meshes
  // ---------------------------------------------------------------------------

  const White := Vec3(1.0, 1.0, 1.0)

  /** What LoadMesh needs of a raw mesh: a UV channel, when present, covers every vertex,
      and the material index is within the material-to-texture table. */
  predicate MeshOk(raw: RawMesh, matToText: seq<int>) {
    && (raw.textureCoords0.Some? ==> |raw.textureCoords0.value| >= |raw.positions|)
    && raw.materialIndex < |matToText|
  }

  /** Vertex `i` of a converted mesh. */
  function VertexOf(raw: RawMesh, i: nat): Vertex
    requires i < |raw.positions|
    requires raw.textureCoords0.Some? ==> |raw.textureCoords0.value| >= |raw.positions|
  {
    var tex := match raw.textureCoords0
      case Some(uv) => Vec2(uv[i].x, uv[i].y)
      case None => Vec2(0.0, 0.0);
    Vertex(raw.positions[i], White, tex)
  }

  /** The index lists of the faces, concatenated in face order. */
  function FlattenFaces(faces: seq<Face>): seq<nat> {
    if faces == [] then [] else faces[0] + FlattenFaces(faces[1..])
  }

  /** Flattening distributes over concatenation of face lists. */
  lemma {:induction false} FlattenFacesAppend(a: seq<Face>, b: seq<Face>)
    ensures FlattenFaces(a + b) == FlattenFaces(a) + FlattenFaces(b)
  {
    if a == [] {
      assert a + b == b;
    } else {
      assert (a + b)[1..] == a[1..] + b;
      FlattenFacesAppend(a[1..], b);
    }
  }

  /** The number of indices is the total of the faces' index counts. */
  function IndexCount(faces: seq<Face>): nat {
    if faces == [] then 0 else |faces[0]| + IndexCount(faces[1..])
  }

  lemma {:induction false} FlattenFacesLength(faces: seq<Face>)
    ensures |FlattenFaces(faces)| == IndexCount(faces)
  {
    if faces != [] {
      FlattenFacesLength(faces[1..]);
    }
  }

  /** The mesh LoadMesh builds from a raw mesh. */
  function ConvertMesh(raw: RawMesh, matToText: seq<int>): (m: Mesh)
    requires MeshOk(raw, matToText)
    ensures |m.vertices| == |raw.positions|
    ensures forall i :: 0 <= i < |m.vertices| ==> m.vertices[i].pos == raw.positions[i] && m.vertices[i].col == White
    ensures forall i :: 0 <= i < |m.vertices| ==>
              m.vertices[i].tex == match raw.textureCoords0
                                   case Some(uv) => Vec2(uv[i].x, uv[i].y)
                                   case None => Vec2(0.0, 0.0)
    ensures m.indices == FlattenFaces(raw.faces)
    ensures m.texId == matToText[raw.materialIndex]
  {
    Mesh(seq(|raw.positions|, i requires 0 <= i < |raw.positions| => VertexOf(raw, i)),
         FlattenFaces(raw.faces),
         matToText[raw.materialIndex])
  }

  /** LoadMesh: size the vertex array and fill it element by element, then append every
      face's indices in order, and look the texture id up through matToText. */
  method LoadMesh(raw: RawMesh, matToText: seq<int>) returns (mesh: Mesh)
    requires MeshOk(raw, matToText)
    ensures mesh == ConvertMesh(raw, matToText)
  {
    var n := |raw.positions|;
    var vertices := new Vertex[n];
    for i := 0 to n
      invariant forall k :: 0 <= k < i ==> vertices[k] == VertexOf(raw, k)
    {
      var tex;
      if raw.textureCoords0.Some? {
        var uv := raw.textureCoords0.value;
        tex := Vec2(uv[i].x, uv[i].y);
      } else {
        tex := Vec2(0.0, 0.0);
      }
      vertices[i] := Vertex(raw.positions[i], White, tex);
    }
    var vertexList := vertices[..];
    assert forall k :: 0 <= k < n ==> vertexList[k] == ConvertMesh(raw, matToText).vertices[k];

    var indices: seq<nat> := [];
    for i := 0 to |raw.faces|
      invariant indices == FlattenFaces(raw.faces[..i])
    {
      var face := raw.faces[i];
      for j := 0 to |face|
        invariant indices == FlattenFaces(raw.faces[..i]) + face[..j]
      {
        indices := indices + [face[j]];
        assert face[..j + 1] == face[..j] + [face[j]];
      }
      assert face[..|face|] == face;
      assert raw.faces[..i + 1] == raw.faces[..i] + [face];
      FlattenFacesAppend(raw.faces[..i], [face]);
      assert FlattenFaces([face]) == face + FlattenFaces([]);
    }
    assert raw.faces[..|raw.faces|] == raw.faces;

    mesh := Mesh(vertexList, indices, matToText[raw.materialIndex]);
  }

  // ---------------------------------------------------------------------------
  // Nodes
  // ---------------------------------------------------------------------------

  /** Every mesh index of the node itself is within the scene and refers to a mesh that
      can be converted. */
  predicate OwnMeshesOk(node: Node, scene: Scene, matToText: seq<int>) {
    forall i :: 0 <= i < |node.meshes| ==>
      node.meshes[i] < |scene.meshes| && MeshOk(scene.meshes[node.meshes[i]], matToText)
  }

  /** OwnMeshesOk holds throughout the subtree. */
  predicate NodeOk(node: Node, scene: Scene, matToText: seq<int>)
    decreases node
  {
    && OwnMeshesOk(node, scene, matToText)
    && (forall c :: 0 <= c < |node.children| ==> NodeOk(node.children[c], scene, matToText))
  }

  /** The converted meshes of the node itself, in mMeshes order. */
  function OwnMeshes(node: Node, scene: Scene, matToText: seq<int>): (r: seq<Mesh>)
    requires OwnMeshesOk(node, scene, matToText)
    ensures |r| == |node.meshes|
    ensures forall i :: 0 <= i < |node.meshes| ==> r[i] == ConvertMesh(scene.meshes[node.meshes[i]], matToText)
  {
    seq(|node.meshes|, i requires 0 <= i < |node.meshes| && OwnMeshesOk(node, scene, matToText) =>
      ConvertMesh(scene.meshes[node.meshes[i]], matToText))
  }

  /** Number of mesh references in a subtree. */
  function MeshCount(node: Node): nat
    decreases node, 1
  {
    |node.meshes| + ChildrenMeshCount(node.children)
  }

  function ChildrenMeshCount(children: seq<Node>): nat
    decreases children, 0
  {
    if children == [] then 0
    else ChildrenMeshCount(children[..|children| - 1]) + MeshCount(children[|children| - 1])
  }

  /** Depth-first, pre-order flattening: the node's own meshes, then each child's
      flattened list in child order. */
  function FlattenNode(node: Node, scene: Scene, matToText: seq<int>): (r: seq<Mesh>)
    requires NodeOk(node, scene, matToText)
    ensures |r| == MeshCount(node)
    ensures r[..|node.meshes|] == OwnMeshes(node, scene, matToText)
    ensures r[|node.meshes|..] == FlattenChildren(node.children, scene, matToText)
    decreases node, 1
  {
    OwnMeshes(node, scene, matToText) + FlattenChildren(node.children, scene, matToText)
  }

  function FlattenChildren(children: seq<Node>, scene: Scene, matToText: seq<int>): (r: seq<Mesh>)
    requires forall c :: 0 <= c < |children| ==> NodeOk(children[c], scene, matToText)
    ensures |r| == ChildrenMeshCount(children)
    decreases children, 0
  {
    if children == [] then []
    else FlattenChildren(children[..|children| - 1], scene, matToText)
         + FlattenNode(children[|children| - 1], scene, matToText)
  }

  /** Flattening one more child appends that child's list. */
  lemma FlattenChildrenStep(children: seq<Node>, i: nat, scene: Scene, matToText: seq<int>)
    requires i < |children|
    requires forall c :: 0 <= c < |children| ==> NodeOk(children[c], scene, matToText)
    ensures FlattenChildren(children[..i + 1], scene, matToText)
            == FlattenChildren(children[..i], scene, matToText) + FlattenNode(children[i], scene, matToText)
  {
    assert children[..i + 1][..i] == children[..i];
  }

  /** LoadNode: push each of the node's own meshes, then append each child's list. */
  method LoadNode(node: Node, scene: Scene, matToText: seq<int>) returns (meshList: seq<Mesh>)
    requires NodeOk(node, scene, matToText)
    ensures meshList == FlattenNode(node, scene, matToText)
    ensures |meshList| == MeshCount(node)
    decreases node, 1
  {
    var children := node.children;
    assert OwnMeshesOk(node, scene, matToText);
    assert forall c :: 0 <= c < |children| ==> NodeOk(children[c], scene, matToText);
    ghost var ownMeshes := OwnMeshes(node, scene, matToText);

    meshList := [];
    for i := 0 to |node.meshes|
      invariant meshList == ownMeshes[..i]
    {
      var mesh := LoadMesh(scene.meshes[node.meshes[i]], matToText);
      assert ownMeshes[..i + 1] == ownMeshes[..i] + [mesh];
      meshList := meshList + [mesh];
    }
    assert meshList == ownMeshes;
    var childMeshes := LoadChildren(children, scene, matToText);
    meshList := meshList + childMeshes;
  }

  /** The second loop of LoadNode: each child's list, appended in child order. */
  method LoadChildren(children: seq<Node>, scene: Scene, matToText: seq<int>) returns (meshList: seq<Mesh>)
    requires forall c :: 0 <= c < |children| ==> NodeOk(children[c], scene, matToText)
    ensures meshList == FlattenChildren(children, scene, matToText)
    decreases children, 0
  {
    meshList := [];
    for i := 0 to |children|
      invariant meshList == FlattenChildren(children[..i], scene, matToText)
    {
      var child := children[i];
      assert NodeOk(child, scene, matToText);
      var newList := LoadNode(child, scene, matToText);
      FlattenChildrenStep(children, i, scene, matToText);
      meshList := meshList + newList;
    }
    assert children[..|children|] == children;
  }

  // ---------------------------------------------------------------------------
  // The model container
  // ---------------------------------------------------------------------------

  const INVALID_MESH_INDEX := "attempted to access invalid mesh index!"

  class MeshModel {
    var meshList: seq<Mesh>
    var model: Mat4
    /** Indices of the meshes whose destroyBuffers has been called, in call order. */
    ghost var destroyed: seq<nat>

    /** The default constructor: no meshes, transform not initialised. */
    constructor Empty()
      ensures meshList == [] && destroyed == []
    {
      meshList := [];
      destroyed := [];
    }

    /** Construct from a mesh list: keep exactly that list, transform = identity. */
    constructor (newMeshList: seq<Mesh>)
      ensures meshList == newMeshList && model == Identity && destroyed == []
    {
      meshList := newMeshList;
      model := Identity;
      destroyed := [];
    }

    function GetMeshCount(): (n: nat)
      reads this
      ensures n == |meshList|
    {
      |meshList|
    }

    /** getMesh: the mesh at `index`, or the exception for an index past the end. */
    function GetMesh(index: nat): (r: Result<Mesh>)
      reads this
      ensures r.Success? <==> index < GetMeshCount()
      ensures index < |meshList| ==> r == Success(meshList[index])
      ensures index >= |meshList| ==> r == Failure(RuntimeError(INVALID_MESH_INDEX))
    {
      if index >= |meshList| then Failure(RuntimeError(INVALID_MESH_INDEX))
      else Success(meshList[index])
    }

    function GetModel(): (m: Mat4)
      reads this
      ensures m == model
    {
      model
    }

    method SetModel(newModel: Mat4)
      modifies this`model
      ensures GetModel() == newModel
      ensures meshList == old(meshList) && destroyed == old(destroyed)
    {
      model := newModel;
    }

    /** destroyMesh: call destroyBuffers on every mesh once, in list order. */
    method DestroyMesh()
      modifies this`destroyed
      ensures destroyed == old(destroyed) + seq(|meshList|, i => i)
      ensures meshList == old(meshList) && model == old(model)
    {
      for i := 0 to |meshList|
        invariant destroyed == old(destroyed) + seq(i, k => k)
      {
        destroyed := destroyed + [i];
      }
    }
  }
}
