/**
 * Renderable objects (src/Object.h): GPU geometry handles plus a local
 * transform, the model matrix built from that transform, and the two constant
 * meshes the scene is made of. Single-precision floats are modelled as reals.
 */
module Objects {
  import opened Linear
  import opened DefaultConsts
  import opened Gl

  datatype Vertex = Vertex(position: Vec3, normal: Vec3, texCoord: Vec2)

  /**
   * An Object: the names of its vertex array and of its vertex and index
   * buffers, its placement in the world and the number of indices drawn.
   */
  datatype Object = Object(
    vao: nat,
    vbo: nat,
    ibo: nat,
    worldPos: Vec3,
    scale: Vec3,
    count: u32)

  function Zero3(): Vec3 { Vec3(0.0, 0.0, 0.0) }
  function One3(): Vec3 { Vec3(1.0, 1.0, 1.0) }

  /** Object() = default: no GPU names, at the origin, unit scale, nothing to draw. */
  function DefaultObject(): (o: Object)
    ensures o.worldPos == Zero3() && o.scale == One3() && o.count == 0
  {
    Object(0, 0, 0, Zero3(), One3(), 0)
  }

  /** getModel: the identity, translated by worldPos, then scaled by scale (glm post-multiplies). */
  function GetModel(o: Object): Mat4
  {
    Scale(Translate(Identity(), o.worldPos), o.scale)
  }

  /** The model matrix holds scale on its diagonal and worldPos in its translation column. */
  lemma ModelColumns(o: Object)
    ensures var s, t := o.scale, o.worldPos;
      GetModel(o) == Mat4(Vec4(s.x, 0.0, 0.0, 0.0), Vec4(0.0, s.y, 0.0, 0.0),
                          Vec4(0.0, 0.0, s.z, 0.0), Vec4(t.x, t.y, t.z, 1.0))
  {
  }

  /** The model matrix scales first and translates second: p maps to worldPos + scale * p. */
  lemma ModelMapsPoint(o: Object, p: Vec3)
    ensures MulVec(GetModel(o), Point(p)) == Point(Add3(o.worldPos, Mul3(o.scale, p)))
  {
    ModelColumns(o);
  }

  /** With the default transform the model matrix is the identity. */
  lemma DefaultModelIsIdentity(o: Object)
    requires o.worldPos == Zero3() && o.scale == One3()
    ensures GetModel(o) == Identity()
  {
    ModelColumns(o);
  }

  function V(px: real, py: real, pz: real, nx: real, ny: real, nz: real, u: real, v: real): Vertex
  {
    Vertex(Vec3(px, py, pz), Vec3(nx, ny, nz), Vec2(u, v))
  }

  /** The plane: a 2x2 square in y = 0 facing +y. */
  function PlaneVertices(): seq<Vertex>
  {
    [ V(-1.0, 0.0, -1.0,  0.0, 1.0, 0.0,  0.0, 0.0),
      V(-1.0, 0.0,  1.0,  0.0, 1.0, 0.0,  0.0, 1.0),
      V( 1.0, 0.0,  1.0,  0.0, 1.0, 0.0,  1.0, 1.0),
      V( 1.0, 0.0, -1.0,  0.0, 1.0, 0.0,  1.0, 0.0) ]
  }

  function PlaneIndices(): seq<u32>
  {
    [ 0, 1, 2,
      0, 2, 3 ]
  }

  /**
   * The box: a 2x2x2 cube, four vertices per face, the faces in the order
   * back, top, bottom, left, right, front.
   */
  function BoxVertices(): (r: seq<Vertex>)
    ensures |r| == 24
  {
    BoxFace(0) + BoxFace(1) + BoxFace(2) + BoxFace(3) + BoxFace(4) + BoxFace(5)
  }

  /** The four vertices of box face k. */
  function BoxFace(k: nat): (r: seq<Vertex>)
    requires k < 6
    ensures |r| == 4
  {
    if k == 0 then // back
      [ V( 1.0,  1.0,  1.0,   0.0,  0.0,  1.0,  1.0, 1.0),
        V( 1.0, -1.0,  1.0,   0.0,  0.0,  1.0,  1.0, 0.0),
        V(-1.0, -1.0,  1.0,   0.0,  0.0,  1.0,  0.0, 0.0),
        V(-1.0,  1.0,  1.0,   0.0,  0.0,  1.0,  0.0, 1.0) ]
    else if k == 1 then // top
      [ V( 1.0,  1.0, -1.0,   0.0,  1.0,  0.0,  1.0, 0.0),
        V( 1.0,  1.0,  1.0,   0.0,  1.0,  0.0,  1.0, 1.0),
        V(-1.0,  1.0, -1.0,   0.0,  1.0,  0.0,  0.0, 0.0),
        V(-1.0,  1.0,  1.0,   0.0,  1.0,  0.0,  0.0, 1.0) ]
    else if k == 2 then // bottom
      [ V( 1.0, -1.0, -1.0,   0.0, -1.0,  0.0,  1.0, 0.0),
        V( 1.0, -1.0,  1.0,   0.0, -1.0,  0.0,  1.0, 1.0),
        V(-1.0, -1.0, -1.0,   0.0, -1.0,  0.0,  0.0, 0.0),
        V(-1.0, -1.0,  1.0,   0.0, -1.0,  0.0,  0.0, 1.0) ]
    else if k == 3 then // left
      [ V(-1.0, -1.0, -1.0,  -1.0,  0.0,  0.0,  1.0, 0.0),
        V(-1.0, -1.0,  1.0,  -1.0,  0.0,  0.0,  0.0, 0.0),
        V(-1.0,  1.0, -1.0,  -1.0,  0.0,  0.0,  1.0, 1.0),
        V(-1.0,  1.0,  1.0,  -1.0,  0.0,  0.0,  0.0, 1.0) ]
    else if k == 4 then // right
      [ V( 1.0, -1.0, -1.0,   1.0,  0.0,  0.0,  1.0, 0.0),
        V( 1.0, -1.0,  1.0,   1.0,  0.0,  0.0,  0.0, 0.0),
        V( 1.0,  1.0, -1.0,   1.0,  0.0,  0.0,  1.0, 1.0),
        V( 1.0,  1.0,  1.0,   1.0,  0.0,  0.0,  0.0, 1.0) ]
    else // front
      [ V( 1.0,  1.0, -1.0,   0.0,  0.0, -1.0,  1.0, 1.0),
        V( 1.0, -1.0, -1.0,   0.0,  0.0, -1.0,  1.0, 0.0),
        V(-1.0, -1.0, -1.0,   0.0,  0.0, -1.0,  0.0, 0.0),
        V(-1.0,  1.0, -1.0,   0.0,  0.0, -1.0,  0.0, 1.0) ]
  }

  /** The box's 36 indices, two triangles per face. */
  function BoxIndices(): (r: seq<u32>)
    ensures |r| == 36
  {
    BoxFaceIndices(0) + BoxFaceIndices(1) + BoxFaceIndices(2) +
    BoxFaceIndices(3) + BoxFaceIndices(4) + BoxFaceIndices(5)
  }

  /** The six indices of the two triangles of box face k. */
  function BoxFaceIndices(k: nat): (r: seq<u32>)
    requires k < 6
    ensures |r| == 6
  {
    if k == 0 then      [ 0,  1,  2,   2,  3,  0]  // back
    else if k == 1 then [ 4,  5,  7,   4,  6,  7]  // top
    else if k == 2 then [ 8,  9, 11,   8, 10, 11]  // bottom
    else if k == 3 then [12, 13, 15,  12, 14, 15]  // left
    else if k == 4 then [16, 17, 19,  16, 18, 19]  // right
    else                [20, 21, 22,  22, 23, 20]  // front
  }

  predicate IsUnitAxis(n: Vec3)
  {
    n in {Vec3(1.0, 0.0, 0.0), Vec3(-1.0, 0.0, 0.0), Vec3(0.0, 1.0, 0.0),
          Vec3(0.0, -1.0, 0.0), Vec3(0.0, 0.0, 1.0), Vec3(0.0, 0.0, -1.0)}
  }

  predicate IsBinary(r: real) { r == 0.0 || r == 1.0 }

  lemma PlaneMesh()
    ensures |PlaneVertices()| == 4 && |PlaneIndices()| == 6
    ensures forall i :: 0 <= i < |PlaneIndices()| ==> PlaneIndices()[i] < |PlaneVertices()|
    ensures forall v :: v in PlaneVertices() ==> v.position.y == 0.0 && v.normal == Vec3(0.0, 1.0, 0.0)
    ensures forall v :: v in PlaneVertices() ==> IsBinary(v.texCoord.x) && IsBinary(v.texCoord.y)
  {
  }

  /** Vertex j of face k sits at position 4k + j of the vertex array. */
  lemma BoxVertexOnFace(k: nat, j: nat)
    requires k < 6 && j < 4
    ensures BoxVertices()[4 * k + j] == BoxFace(k)[j]
  {
    var f := BoxFace(0) + BoxFace(1) + BoxFace(2) + BoxFace(3) + BoxFace(4);
    if k < 5 {
      assert BoxVertices()[4 * k + j] == f[4 * k + j];
      var e := BoxFace(0) + BoxFace(1) + BoxFace(2) + BoxFace(3);
      if k < 4 {
        assert f[4 * k + j] == e[4 * k + j];
        var d := BoxFace(0) + BoxFace(1) + BoxFace(2);
        if k < 3 {
          assert e[4 * k + j] == d[4 * k + j];
        }
      }
    }
  }

  /** Index j of face k sits at position 6k + j of the index array. */
  lemma BoxIndexOnFace(k: nat, j: nat)
    requires k < 6 && j < 6
    ensures BoxIndices()[6 * k + j] == BoxFaceIndices(k)[j]
  {
    var f := BoxFaceIndices(0) + BoxFaceIndices(1) + BoxFaceIndices(2) + BoxFaceIndices(3) + BoxFaceIndices(4);
    if k < 5 {
      assert BoxIndices()[6 * k + j] == f[6 * k + j];
      var e := BoxFaceIndices(0) + BoxFaceIndices(1) + BoxFaceIndices(2) + BoxFaceIndices(3);
      if k < 4 {
        assert f[6 * k + j] == e[6 * k + j];
        var d := BoxFaceIndices(0) + BoxFaceIndices(1) + BoxFaceIndices(2);
        if k < 3 {
          assert e[6 * k + j] == d[6 * k + j];
        }
      }
    }
  }

  /** Each face's two triangles use only that face's four vertices. */
  lemma BoxFaceTriangles(k: nat)
    requires k < 6
    ensures forall j :: 0 <= j < 6 ==> 4 * k <= BoxFaceIndices(k)[j] < 4 * k + 4
  {
    if k == 0 {} else if k == 1 {} else if k == 2 {} else if k == 3 {} else if k == 4 {} else {}
  }

  /**
   * Each face's vertices share one axis-aligned unit normal and lie in the
   * plane one unit out along it; every texture coordinate is 0 or 1.
   */
  lemma BoxFaceGeometry(k: nat)
    requires k < 6
    ensures forall j :: 0 <= j < 4 ==>
      var v := BoxFace(k)[j];
      && v.normal == BoxFace(k)[0].normal && IsUnitAxis(v.normal) && Dot3(v.position, v.normal) == 1.0
      && IsBinary(v.texCoord.x) && IsBinary(v.texCoord.y)
  {
    var f := BoxFace(k);
    forall j | 0 <= j < 4
      ensures f[j].normal == f[0].normal && IsUnitAxis(f[j].normal) && Dot3(f[j].position, f[j].normal) == 1.0
      ensures IsBinary(f[j].texCoord.x) && IsBinary(f[j].texCoord.y)
    {
      if k == 0 {} else if k == 1 {} else if k == 2 {} else if k == 3 {} else if k == 4 {} else {}
    }
  }

  /** The box mesh: 24 vertices, 12 triangles, every index names a vertex, every texture coordinate is 0 or 1. */
  lemma BoxMesh()
    ensures |BoxVertices()| == 24 && |BoxIndices()| == 36 && |BoxIndices()| % 3 == 0
    ensures forall i :: 0 <= i < |BoxIndices()| ==> BoxIndices()[i] < |BoxVertices()|
    ensures forall i :: 0 <= i < |BoxVertices()| ==>
      IsBinary(BoxVertices()[i].texCoord.x) && IsBinary(BoxVertices()[i].texCoord.y)
  {
    forall i | 0 <= i < 36
      ensures BoxIndices()[i] < 24
    {
      var k, j := i / 6, i % 6;
      assert i == 6 * k + j;
      BoxIndexOnFace(k, j);
      BoxFaceTriangles(k);
    }
    forall i | 0 <= i < 24
      ensures IsBinary(BoxVertices()[i].texCoord.x) && IsBinary(BoxVertices()[i].texCoord.y)
    {
      var k, j := i / 4, i % 4;
      assert i == 4 * k + j;
      BoxVertexOnFace(k, j);
      BoxFaceGeometry(k);
    }
  }

  /** What the constructor uploads, once it has its three names. */
  function ObjectCreateCommands(vao: nat, vbo: nat, ibo: nat, vertexCount: nat, indexCount: nat): seq<Command>
  {
    [BindVertexArray(vao), UploadVertices(vbo, vertexCount), UploadIndices(ibo, indexCount)]
  }

  /** The constructor's uploads leave its vertex array bound, change nothing else and draw nothing. */
  lemma ObjectCreateRun(s: GlState, vao: nat, vbo: nat, ibo: nat, vertexCount: nat, indexCount: nat)
    ensures Exec(s, ObjectCreateCommands(vao, vbo, ibo, vertexCount, indexCount)).final == s.(vao := vao)
    ensures Exec(s, ObjectCreateCommands(vao, vbo, ibo, vertexCount, indexCount)).draws == []
  {
    var c := ObjectCreateCommands(vao, vbo, ibo, vertexCount, indexCount);
    ExecThree(s, c[0], c[1], c[2]);
    NoDrawCommands(s, c);
  }

  /**
   * Object(vertices, indices): generates a vertex array and two buffers,
   * uploads the mesh, and records the index count, cast to uint32_t.
   */
  method CreateObject(gl: GlContext, vertices: seq<Vertex>, indices: seq<u32>) returns (o: Object)
    requires gl.Valid()
    modifies gl
    ensures gl.Valid() && gl.start == old(gl.start)
    ensures o.worldPos == Zero3() && o.scale == One3()
    ensures o.count == |indices| % U32Modulus
    ensures |indices| < U32Modulus ==> o.count == |indices|
    ensures o.vao == old(gl.nextName) && o.vbo == o.vao + 1 && o.ibo == o.vao + 2 && gl.nextName == o.vao + 3
    ensures gl.trace == old(gl.trace) + ObjectCreateCommands(o.vao, o.vbo, o.ibo, |vertices|, |indices|)
    ensures gl.state == old(gl.state).(vao := o.vao) && gl.Draws() == old(gl.Draws())
  {
    var count := |indices| % U32Modulus;
    var vao := gl.GenName();
    gl.Issue(BindVertexArray(vao));
    var vbo := gl.GenName();
    gl.Issue(UploadVertices(vbo, |vertices|));
    var ibo := gl.GenName();
    gl.Issue(UploadIndices(ibo, |indices|));
    o := Object(vao, vbo, ibo, Zero3(), One3(), count);
    ExecAppend(gl.start, old(gl.trace), ObjectCreateCommands(vao, vbo, ibo, |vertices|, |indices|));
    ObjectCreateRun(old(gl.state), vao, vbo, ibo, |vertices|, |indices|);
  }

  /** createPlane: a fresh object holding the plane mesh, six indices to draw. */
  method CreatePlane(gl: GlContext) returns (o: Object)
    requires gl.Valid()
    modifies gl
    ensures gl.Valid() && gl.start == old(gl.start)
    ensures o.worldPos == Zero3() && o.scale == One3() && o.count == 6
    ensures o.vao == old(gl.nextName) && o.vbo == o.vao + 1 && o.ibo == o.vao + 2 && gl.nextName == o.vao + 3
    ensures gl.trace == old(gl.trace) + ObjectCreateCommands(o.vao, o.vbo, o.ibo, 4, 6)
    ensures gl.state == old(gl.state).(vao := o.vao) && gl.Draws() == old(gl.Draws())
  {
    o := CreateObject(gl, PlaneVertices(), PlaneIndices());
  }

  /** createBox: a fresh object holding the box mesh, thirty-six indices to draw. */
  method CreateBox(gl: GlContext) returns (o: Object)
    requires gl.Valid()
    modifies gl
    ensures gl.Valid() && gl.start == old(gl.start)
    ensures o.worldPos == Zero3() && o.scale == One3() && o.count == 36
    ensures o.vao == old(gl.nextName) && o.vbo == o.vao + 1 && o.ibo == o.vao + 2 && gl.nextName == o.vao + 3
    ensures gl.trace == old(gl.trace) + ObjectCreateCommands(o.vao, o.vbo, o.ibo, 24, 36)
    ensures gl.state == old(gl.state).(vao := o.vao) && gl.Draws() == old(gl.Draws())
  {
    o := CreateObject(gl, BoxVertices(), BoxIndices());
  }
}
