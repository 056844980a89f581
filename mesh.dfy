/** The vertex of the sample meshes and the OBJ loader. The loader walks every
    model's index list and writes out one full vertex per index (it does not
    share duplicated vertices), so the index buffer it returns just counts
    0, 1, 2, ... The f32 components are modelled as reals. */
module Mesh {
  import opened Vk

  datatype Vec3 = Vec3(x: real, y: real, z: real)
  datatype Vec2 = Vec2(x: real, y: real)

  const VEC3_ONE: Vec3 := Vec3(1.0, 1.0, 1.0)
  const VEC2_ZERO: Vec2 := Vec2(0.0, 0.0)

  /** Vertex: position, color and texture coordinate, laid out as in C. */
  datatype Vertex = Vertex(pos: Vec3, color: Vec3, textureCoord: Vec2)

  /** Vertex::new: a white, untextured vertex at `pos`. */
  function NewVertex(pos: Vec3): (v: Vertex)
    ensures v.pos == pos && v.color == VEC3_ONE && v.textureCoord == VEC2_ZERO
  {
    Vertex(pos, VEC3_ONE, VEC2_ZERO)
  }

  /** with_color: only the color changes. */
  function WithColor(v: Vertex, color: Vec3): (r: Vertex)
    ensures r.color == color
    ensures r.(color := v.color) == v
  {
    v.(color := color)
  }

  /** with_texture_coord: only the texture coordinate changes. */
  function WithTextureCoord(v: Vertex, textureCoord: Vec2): (r: Vertex)
    ensures r.textureCoord == textureCoord
    ensures r.(textureCoord := v.textureCoord) == v
  {
    v.(textureCoord := textureCoord)
  }

  // The C layout of Vertex: three f32 for `pos`, three for `color`, two for
  // `texture_coord`, no padding (every field has the alignment of f32).
  const F32_SIZE: nat := 4
  const POS_OFFSET: nat := 0
  const COLOR_OFFSET: nat := POS_OFFSET + 3 * F32_SIZE
  const TEXTURE_COORD_OFFSET: nat := COLOR_OFFSET + 3 * F32_SIZE
  const VERTEX_SIZE: nat := TEXTURE_COORD_OFFSET + 2 * F32_SIZE

  /** The byte size of the attribute formats a vertex uses. */
  function FormatSize(format: Format): nat {
    if format == FORMAT_R32G32B32_SFLOAT then 3 * F32_SIZE
    else if format == FORMAT_R32G32_SFLOAT then 2 * F32_SIZE
    else 0
  }

  datatype VertexInputRate = RateVertex | RateInstance

  datatype VertexInputBindingDescription = VertexInputBindingDescription(binding: u32, stride: u32, inputRate: VertexInputRate)

  datatype VertexInputAttributeDescription = VertexInputAttributeDescription(
    binding: u32, location: u32, format: Format, offset: u32)

  /** binding_description: binding 0, advancing one Vertex per vertex. */
  function BindingDescription(): (b: VertexInputBindingDescription)
    ensures b.binding == 0 && b.stride == VERTEX_SIZE && b.inputRate == RateVertex
  {
    VertexInputBindingDescription(0, VERTEX_SIZE, RateVertex)
  }

  /** attr_descriptions: pos, color and texture_coord at locations 0, 1 and 2
      of binding 0. Each attribute lies inside one vertex's stride and the
      three lie one after the other without overlapping. */
  function AttrDescriptions(): (a: seq<VertexInputAttributeDescription>)
    ensures |a| == 3
    ensures forall k | 0 <= k < |a| :: a[k].location == k && a[k].binding == BindingDescription().binding
    ensures a[0].format == FORMAT_R32G32B32_SFLOAT && a[0].offset == POS_OFFSET
    ensures a[1].format == FORMAT_R32G32B32_SFLOAT && a[1].offset == COLOR_OFFSET
    ensures a[2].format == FORMAT_R32G32_SFLOAT && a[2].offset == TEXTURE_COORD_OFFSET
    ensures forall k | 0 <= k < |a| :: 0 < FormatSize(a[k].format) && a[k].offset + FormatSize(a[k].format) <= BindingDescription().stride
    ensures forall j, k | 0 <= j < k < |a| :: a[j].offset + FormatSize(a[j].format) <= a[k].offset
  {
    [VertexInputAttributeDescription(0, 0, FORMAT_R32G32B32_SFLOAT, POS_OFFSET),
     VertexInputAttributeDescription(0, 1, FORMAT_R32G32B32_SFLOAT, COLOR_OFFSET),
     VertexInputAttributeDescription(0, 2, FORMAT_R32G32_SFLOAT, TEXTURE_COORD_OFFSET)]
  }

  /** The parts of a tobj mesh the loader reads: the position index and the
      texture-coordinate index of every corner, and the flat position (x, y, z)
      and texture-coordinate (u, v) arrays they index. */
  datatype ObjMesh = ObjMesh(indices: seq<u32>, texcoordIndices: seq<u32>, positions: seq<real>, texcoords: seq<real>)

  datatype Model = Model(name: string, mesh: ObjMesh)

  /** What tobj::load_obj answers for the path: the models, or a load error. */
  datatype ObjLoad = Loaded(models: seq<Model>) | LoadFailed

  /** Every index the loader follows is in range; otherwise the loop panics. */
  predicate InRange(m: ObjMesh) {
    && |m.indices| <= |m.texcoordIndices|
    && (forall i | 0 <= i < |m.indices| :: 3 * m.indices[i] + 2 < |m.positions|)
    && (forall i | 0 <= i < |m.indices| :: 2 * m.texcoordIndices[i] + 1 < |m.texcoords|)
  }

  predicate AllInRange(models: seq<Model>) {
    forall j | 0 <= j < |models| :: InRange(models[j].mesh)
  }

  /** The vertex written for corner `i` of a mesh: the indexed position with z
      negated, and the indexed texture coordinate with v flipped (1 - v). */
  function CornerVertex(m: ObjMesh, i: nat): (v: Vertex)
    requires InRange(m) && i < |m.indices|
    ensures var p: nat, t: nat := m.indices[i], m.texcoordIndices[i];
      && v.pos == Vec3(m.positions[3 * p], m.positions[3 * p + 1], -m.positions[3 * p + 2])
      && v.textureCoord == Vec2(m.texcoords[2 * t], 1.0 - m.texcoords[2 * t + 1])
      && v.color == VEC3_ONE
  {
    var p: nat, t: nat := m.indices[i], m.texcoordIndices[i];
    WithTextureCoord(NewVertex(Vec3(m.positions[3 * p], m.positions[3 * p + 1], -m.positions[3 * p + 2])),
                     Vec2(m.texcoords[2 * t], 1.0 - m.texcoords[2 * t + 1]))
  }

  /** The vertices of one mesh, one per corner. */
  function MeshVertices(m: ObjMesh): (vs: seq<Vertex>)
    requires InRange(m)
    ensures |vs| == |m.indices|
    ensures forall i | 0 <= i < |vs| :: vs[i] == CornerVertex(m, i)
  {
    seq(|m.indices|, i requires 0 <= i < |m.indices| => CornerVertex(m, i))
  }

  /** The number of corners of all models: the sum of their index counts. */
  function IndexCount(models: seq<Model>): nat {
    if models == [] then 0
    else IndexCount(models[..|models| - 1]) + |models[|models| - 1].mesh.indices|
  }

  /** The de-indexed vertex stream: the models' vertices one after the other. */
  function DeIndexed(models: seq<Model>): (vs: seq<Vertex>)
    requires AllInRange(models)
    ensures |vs| == IndexCount(models)
  {
    if models == [] then []
    else DeIndexed(models[..|models| - 1]) + MeshVertices(models[|models| - 1].mesh)
  }

  /** 2^32: `len() as u32` keeps the count modulo this. */
  const U32_MODULUS: nat := U32_MAX + 1

  /** The index list the loader pushes: each index is the list's length at
      that point, truncated to u32. */
  function CountingIndices(n: nat): (s: seq<u32>)
    ensures |s| == n
    ensures forall k | 0 <= k < n :: s[k] == k % U32_MODULUS
  {
    seq(n, k => (k % U32_MODULUS) as u32)
  }

  /** Pushing the next index keeps the list counting. */
  lemma CountingIndicesPush(n: nat)
    ensures CountingIndices(n + 1) == CountingIndices(n) + [(n % U32_MODULUS) as u32]
  {
    assert CountingIndices(n + 1)[..n] == CountingIndices(n);
  }

  /** The inner loop of load_obj_model over one mesh: push each corner's
      vertex and the current length of the index list. */
  method PushMeshVertices(vertices: seq<Vertex>, indices: seq<u32>, m: ObjMesh)
    returns (vertices': seq<Vertex>, indices': seq<u32>)
    requires InRange(m) && indices == CountingIndices(|vertices|)
    ensures vertices' == vertices + MeshVertices(m)
    ensures indices' == CountingIndices(|vertices'|)
  {
    vertices', indices' := vertices, indices;
    var i := 0;
    while i < |m.indices|
      invariant 0 <= i <= |m.indices|
      invariant vertices' == vertices + MeshVertices(m)[..i]
      invariant indices' == CountingIndices(|vertices'|)
    {
      var v: nat := m.indices[i];
      var t: nat := m.texcoordIndices[i];
      var vertex := WithTextureCoord(NewVertex(Vec3(m.positions[3 * v], m.positions[3 * v + 1], -m.positions[3 * v + 2])),
                                     Vec2(m.texcoords[2 * t], 1.0 - m.texcoords[2 * t + 1]));
      assert MeshVertices(m)[..i + 1] == MeshVertices(m)[..i] + [vertex];
      CountingIndicesPush(|indices'|);
      vertices' := vertices' + [vertex];
      indices' := indices' + [(|indices'| % U32_MODULUS) as u32];
      i := i + 1;
    }
    assert MeshVertices(m)[..i] == MeshVertices(m);
  }

  /** load_obj_model: a load error becomes RenderError::ObjLoadError; otherwise
      every corner of every model, in order, becomes a vertex and its index. */
  method LoadObjModel(load: ObjLoad) returns (r: Result<(seq<Vertex>, seq<u32>)>)
    requires load.Loaded? ==> AllInRange(load.models)
    ensures load.LoadFailed? ==> r == Err(ObjLoadError)
    ensures load.Loaded? ==> r.Ok?
    ensures load.Loaded? ==>
      && r.value.0 == DeIndexed(load.models)
      && r.value.1 == CountingIndices(IndexCount(load.models))
  {
    if load.LoadFailed? {
      return Err(ObjLoadError);
    }
    var models := load.models;
    var vertices: seq<Vertex> := [];
    var indices: seq<u32> := [];
    var j := 0;
    while j < |models|
      invariant 0 <= j <= |models|
      invariant AllInRange(models[..j])
      invariant vertices == DeIndexed(models[..j])
      invariant indices == CountingIndices(|vertices|)
    {
      assert models[..j + 1][..j] == models[..j];
      assert models[..j + 1][j] == models[j];
      vertices, indices := PushMeshVertices(vertices, indices, models[j].mesh);
      j := j + 1;
    }
    assert models[..j] == models;
    return Ok((vertices, indices));
  }

  /** The start of model `j`'s vertices in the de-indexed stream. */
  function Offset(models: seq<Model>, j: nat): nat
    requires j <= |models|
  {
    IndexCount(models[..j])
  }

  /** Corner `i` of model `j` lands at offset(j) + i of the vertex stream. */
  lemma {:induction false} DeIndexedAt(models: seq<Model>, j: nat, i: nat)
    requires AllInRange(models) && j < |models| && i < |models[j].mesh.indices|
    ensures Offset(models, j) + i < |DeIndexed(models)|
    ensures DeIndexed(models)[Offset(models, j) + i] == CornerVertex(models[j].mesh, i)
  {
    var front := models[..|models| - 1];
    assert AllInRange(front) by {
      assert forall k | 0 <= k < |front| :: front[k] == models[k];
    }
    if j == |models| - 1 {
      assert models[..j] == front;
    } else {
      assert front[..j] == models[..j];
      assert front[j] == models[j];
      DeIndexedAt(front, j, i);
      assert Offset(front, j) + i < |DeIndexed(front)|;
    }
  }

  /** While the corner count fits in u32, the index list is 0, 1, ..., n - 1,
      so an indexed draw with it reads the de-indexed vertices back in order. */
  lemma IndexedDrawReproducesVertices(vertices: seq<Vertex>, indices: seq<u32>)
    requires indices == CountingIndices(|vertices|) && |vertices| <= U32_MODULUS
    ensures forall k | 0 <= k < |indices| :: indices[k] == k
    ensures seq(|indices|, k requires 0 <= k < |indices| => vertices[indices[k]]) == vertices
  {
    assert forall k | 0 <= k < |indices| :: indices[k] == k;
  }

  /** Past 2^32 corners the truncated count wraps: index 2^32 is 0 again. */
  lemma IndicesWrapPastU32(n: nat)
    requires n > U32_MODULUS
    ensures CountingIndices(n)[U32_MODULUS] == 0
  {
  }
}
