/**
 * The callers of the emulation layer: renderCube, which draws the front and
 * back faces of a cube in one batch, and the main loop's frame, which wraps it
 * in a push and a pop of the model matrix.
 */
module Demo {
  import opened Linear
  import opened Immediate
  import opened Render

  /** A corner as renderCube specifies it: texture coordinate, then local position. */
  datatype Corner = Corner(u: real, v: real, x: real, y: real, z: real)

  /** The twelve corners of renderCube, in call order: two triangles per face, front then back. */
  const CubeCorners: seq<Corner> := [
    Corner(0.0, 0.0, -0.5, -0.5, 0.5), Corner(1.0, 0.0, 0.5, -0.5, 0.5), Corner(1.0, 1.0, 0.5, 0.5, 0.5),
    Corner(0.0, 0.0, -0.5, -0.5, 0.5), Corner(1.0, 1.0, 0.5, 0.5, 0.5), Corner(0.0, 1.0, -0.5, 0.5, 0.5),
    Corner(1.0, 0.0, -0.5, -0.5, -0.5), Corner(1.0, 1.0, -0.5, 0.5, -0.5), Corner(0.0, 1.0, 0.5, 0.5, -0.5),
    Corner(1.0, 0.0, -0.5, -0.5, -0.5), Corner(0.0, 1.0, 0.5, 0.5, -0.5), Corner(0.0, 0.0, 0.5, -0.5, -0.5)
  ]

  /** The vertex stored for a corner under model matrix m, in renderCube's white. */
  function CubeVertex(m: Mat4, c: Corner): Vertex {
    var p := Apply(m, Point(c.x, c.y, c.z));
    Vertex(p.x, p.y, p.z, 1.0, 1.0, 1.0, c.u, c.v)
  }

  /**
   * The vertex buffer renderCube fills under model matrix m, written as the
   * batch builds it: emptied by the begin call, then one corner appended per
   * vertex call.
   */
  function CubeVertices(m: Mat4): seq<Vertex> {
    [] + [CubeVertex(m, CubeCorners[0])] + [CubeVertex(m, CubeCorners[1])] + [CubeVertex(m, CubeCorners[2])]
       + [CubeVertex(m, CubeCorners[3])] + [CubeVertex(m, CubeCorners[4])] + [CubeVertex(m, CubeCorners[5])]
       + [CubeVertex(m, CubeCorners[6])] + [CubeVertex(m, CubeCorners[7])] + [CubeVertex(m, CubeCorners[8])]
       + [CubeVertex(m, CubeCorners[9])] + [CubeVertex(m, CubeCorners[10])] + [CubeVertex(m, CubeCorners[11])]
  }

  /** Vertex i of the buffer is corner i of renderCube under m, for each of the twelve corners and no more. */
  lemma CubeVerticesAreCorners(m: Mat4)
    ensures |CubeVertices(m)| == |CubeCorners| == 12
    ensures forall i :: 0 <= i < |CubeCorners| ==> CubeVertices(m)[i] == CubeVertex(m, CubeCorners[i])
  {
  }

  /** The model matrix renderCube leaves behind: translated back by 2 along z, then rotated by spin degrees about (0, 1, 1). */
  function CubeModel(outer: Mat4, rot: Rotation, spin: int): Mat4 {
    Mul(Mul(outer, Translation(0.0, 0.0, -2.0)), rot(spin as real, 0.0, 1.0, 1.0))
  }

  /**
   * One batch of GL_TRIANGLES with the twelve cube vertices, uploaded and
   * drawn with a count of 12; the model matrix keeps the batch's transforms,
   * the stack is untouched and the attributes end white at texture origin.
   */
  method RenderCube(ctx: RenderContext, spin: int)
    modifies ctx
    ensures ctx.modelMatrix == CubeModel(old(ctx.modelMatrix), ctx.rotation, spin)
    ensures ctx.matrixStack == old(ctx.matrixStack)
    ensures ctx.drawMode == GL_TRIANGLES
    ensures ctx.vertexBuffer == CubeVertices(ctx.modelMatrix)
    ensures ctx.issued == old(ctx.issued) + [Upload(ctx.vertexBuffer), DrawArrays(GL_TRIANGLES, 0, 12)]
    ensures ctx.currentR == 1.0 && ctx.currentG == 1.0 && ctx.currentB == 1.0
    ensures ctx.currentU == 0.0 && ctx.currentV == 0.0
  {
    ctx.Begin(GL_TRIANGLES);

    ctx.Translatef(0.0, 0.0, -2.0);
    ctx.Rotatef(spin as real, 0.0, 1.0, 1.0);

    // front face
    ctx.Color3f(1.0, 1.0, 1.0);
    ctx.TexCoord2D(0.0, 0.0); ctx.Vertex3f(-0.5, -0.5, 0.5);
    ctx.TexCoord2D(1.0, 0.0); ctx.Vertex3f( 0.5, -0.5, 0.5);
    ctx.TexCoord2D(1.0, 1.0); ctx.Vertex3f( 0.5,  0.5, 0.5);

    ctx.TexCoord2D(0.0, 0.0); ctx.Vertex3f(-0.5, -0.5, 0.5);
    ctx.TexCoord2D(1.0, 1.0); ctx.Vertex3f( 0.5,  0.5, 0.5);
    ctx.TexCoord2D(0.0, 1.0); ctx.Vertex3f(-0.5,  0.5, 0.5);

    // back face
    ctx.TexCoord2D(1.0, 0.0); ctx.Vertex3f(-0.5, -0.5, -0.5);
    ctx.TexCoord2D(1.0, 1.0); ctx.Vertex3f(-0.5,  0.5, -0.5);
    ctx.TexCoord2D(0.0, 1.0); ctx.Vertex3f( 0.5,  0.5, -0.5);

    ctx.TexCoord2D(1.0, 0.0); ctx.Vertex3f(-0.5, -0.5, -0.5);
    ctx.TexCoord2D(0.0, 1.0); ctx.Vertex3f( 0.5,  0.5, -0.5);
    ctx.TexCoord2D(0.0, 0.0); ctx.Vertex3f( 0.5, -0.5, -0.5);

    ctx.End();
  }

  /**
   * One iteration of the main loop's drawing: push, renderCube, pop. The
   * model matrix and the stack come back exactly as they were, and exactly
   * one upload and one 12-vertex triangle draw are issued. The topology,
   * colour and texture coordinate are left as renderCube set them.
   */
  method Frame(ctx: RenderContext, spin: int)
    modifies ctx
    ensures ctx.modelMatrix == old(ctx.modelMatrix)
    ensures ctx.matrixStack == old(ctx.matrixStack)
    ensures ctx.drawMode == GL_TRIANGLES
    ensures ctx.currentR == 1.0 && ctx.currentG == 1.0 && ctx.currentB == 1.0
    ensures ctx.currentU == 0.0 && ctx.currentV == 0.0
    ensures ctx.vertexBuffer == CubeVertices(CubeModel(old(ctx.modelMatrix), ctx.rotation, spin))
    ensures ctx.issued == old(ctx.issued) + [Upload(ctx.vertexBuffer), DrawArrays(GL_TRIANGLES, 0, 12)]
  {
    ctx.PushMatrix();
    RenderCube(ctx, spin);
    ctx.PopMatrix();
  }

  /** With the rotation at the identity (spin 0), the cube's model matrix is the outer one translated by -2 along z. */
  lemma CubeModelAtZero(m: Mat4, rot: Rotation)
    requires rot(0.0, 0.0, 1.0, 1.0) == Identity
    ensures CubeModel(m, rot, 0) == Mul(m, Translation(0.0, 0.0, -2.0))
  {
    MulIdentity(Mul(m, Translation(0.0, 0.0, -2.0)));
  }

  /**
   * With the rotation at the identity (spin 0), a corner's vertex is the
   * corner moved by -2 along z before the old model matrix acts on it; from
   * the identity model matrix it sits exactly at (x, y, z - 2).
   */
  lemma CornerShiftedBack(m: Mat4, rot: Rotation, c: Corner)
    requires rot(0.0, 0.0, 1.0, 1.0) == Identity
    ensures var p := Apply(m, Point(c.x, c.y, c.z - 2.0));
            CubeVertex(CubeModel(m, rot, 0), c) == Vertex(p.x, p.y, p.z, 1.0, 1.0, 1.0, c.u, c.v)
    ensures m == Identity ==> CubeVertex(CubeModel(m, rot, 0), c) == Vertex(c.x, c.y, c.z - 2.0, 1.0, 1.0, 1.0, c.u, c.v)
  {
    var mt := Mul(m, Translation(0.0, 0.0, -2.0));
    CubeModelAtZero(m, rot);
    assert CubeVertex(CubeModel(m, rot, 0), c) == CubeVertex(mt, c);
    TranslateLocal(m, 0.0, 0.0, -2.0, c.x, c.y, c.z);
    assert Apply(mt, Point(c.x, c.y, c.z)) == Apply(m, Point(c.x, c.y, c.z - 2.0));
    ApplyIdentity(Point(c.x, c.y, c.z - 2.0));
  }
}
