/**
 * The globals of the emulation layer gathered in one object, and one method
 * per my* procedure. Each method states its whole new state: the fields it
 * sets, and that every other field keeps its value. `Execute` dispatches a
 * command to the method that performs it and proves, through `Abs`, that the
 * object then holds exactly the state `Immediate.Exec` gives, so every lemma
 * about `Immediate.Run` speaks about the object.
 */
module Render {
  import opened Linear
  import opened Immediate

  class RenderContext {
    /** The rotation matrix constructor of the matrix library. */
    const rotation: Rotation

    var modelMatrix: Mat4
    /** The matrix stack; its top is the last element. */
    var matrixStack: seq<Mat4>
    var currentR: real
    var currentG: real
    var currentB: real
    var currentU: real
    var currentV: real
    var vertexBuffer: seq<Vertex>
    var drawMode: int
    /** The calls made on the graphics device so far, oldest first; a record for the proofs only. */
    ghost var issued: seq<GlCall>

    /** The state the fields hold. */
    ghost function Abs(): State
      reads this
    {
      State(modelMatrix, matrixStack, currentR, currentG, currentB, currentU, currentV,
            vertexBuffer, drawMode, issued)
    }

    /** The static initialisers: identity matrix, empty stack, white, texture origin, empty buffer, mode 0. */
    constructor (rotation: Rotation)
      ensures this.rotation == rotation
      ensures Abs() == Initial()
    {
      this.rotation := rotation;
      modelMatrix := Identity;
      matrixStack := [];
      currentR, currentG, currentB := 1.0, 1.0, 1.0;
      currentU, currentV := 0.0, 0.0;
      vertexBuffer := [];
      drawMode := 0;
      issued := [];
    }

    /** Saves a copy of the current matrix on top of the stack; the matrix itself stays. */
    method PushMatrix()
      modifies this
      ensures matrixStack == old(matrixStack) + [old(modelMatrix)]
      ensures modelMatrix == old(modelMatrix)
      // attributes, batch and log unchanged
      ensures currentR == old(currentR) && currentG == old(currentG) && currentB == old(currentB)
      ensures currentU == old(currentU) && currentV == old(currentV)
      ensures vertexBuffer == old(vertexBuffer) && drawMode == old(drawMode) && issued == old(issued)
    {
      matrixStack := matrixStack + [modelMatrix];
    }

    /** Restores the top of the stack and removes it; on an empty stack nothing at all changes. */
    method PopMatrix()
      modifies this
      ensures old(matrixStack) == [] ==> modelMatrix == old(modelMatrix) && matrixStack == []
      ensures old(matrixStack) != [] ==>
                modelMatrix == old(matrixStack)[|old(matrixStack)| - 1] &&
                matrixStack == old(matrixStack)[..|old(matrixStack)| - 1]
      // attributes, batch and log unchanged
      ensures currentR == old(currentR) && currentG == old(currentG) && currentB == old(currentB)
      ensures currentU == old(currentU) && currentV == old(currentV)
      ensures vertexBuffer == old(vertexBuffer) && drawMode == old(drawMode) && issued == old(issued)
    {
      if matrixStack != [] {
        modelMatrix := matrixStack[|matrixStack| - 1];
        matrixStack := matrixStack[..|matrixStack| - 1];
      }
    }

    /** Post-multiplies the current matrix by a scaling. */
    method Scalef(x: real, y: real, z: real)
      modifies this
      ensures modelMatrix == Mul(old(modelMatrix), Scaling(x, y, z))
      // stack, attributes, batch and log unchanged
      ensures matrixStack == old(matrixStack)
      ensures currentR == old(currentR) && currentG == old(currentG) && currentB == old(currentB)
      ensures currentU == old(currentU) && currentV == old(currentV)
      ensures vertexBuffer == old(vertexBuffer) && drawMode == old(drawMode) && issued == old(issued)
    {
      modelMatrix := Mul(modelMatrix, Scaling(x, y, z));
    }

    /** Post-multiplies the current matrix by a translation. */
    method Translatef(x: real, y: real, z: real)
      modifies this
      ensures modelMatrix == Mul(old(modelMatrix), Translation(x, y, z))
      // stack, attributes, batch and log unchanged
      ensures matrixStack == old(matrixStack)
      ensures currentR == old(currentR) && currentG == old(currentG) && currentB == old(currentB)
      ensures currentU == old(currentU) && currentV == old(currentV)
      ensures vertexBuffer == old(vertexBuffer) && drawMode == old(drawMode) && issued == old(issued)
    {
      modelMatrix := Mul(modelMatrix, Translation(x, y, z));
    }

    /** Post-multiplies the current matrix by the rotation of `angle` degrees about (x, y, z). */
    method Rotatef(angle: real, x: real, y: real, z: real)
      modifies this
      ensures modelMatrix == Mul(old(modelMatrix), rotation(angle, x, y, z))
      // stack, attributes, batch and log unchanged
      ensures matrixStack == old(matrixStack)
      ensures currentR == old(currentR) && currentG == old(currentG) && currentB == old(currentB)
      ensures currentU == old(currentU) && currentV == old(currentV)
      ensures vertexBuffer == old(vertexBuffer) && drawMode == old(drawMode) && issued == old(issued)
    {
      modelMatrix := Mul(modelMatrix, rotation(angle, x, y, z));
    }

    /** Sets the current colour to exactly the arguments, with no clamping. */
    method Color3f(r: real, g: real, b: real)
      modifies this
      ensures currentR == r && currentG == g && currentB == b
      // matrices, texture coordinate, batch and log unchanged
      ensures modelMatrix == old(modelMatrix) && matrixStack == old(matrixStack)
      ensures currentU == old(currentU) && currentV == old(currentV)
      ensures vertexBuffer == old(vertexBuffer) && drawMode == old(drawMode) && issued == old(issued)
    {
      currentR := r;
      currentG := g;
      currentB := b;
    }

    /** Sets the current texture coordinate to exactly the arguments, with no clamping. */
    method TexCoord2D(u: real, v: real)
      modifies this
      ensures currentU == u && currentV == v
      // matrices, colour, batch and log unchanged
      ensures modelMatrix == old(modelMatrix) && matrixStack == old(matrixStack)
      ensures currentR == old(currentR) && currentG == old(currentG) && currentB == old(currentB)
      ensures vertexBuffer == old(vertexBuffer) && drawMode == old(drawMode) && issued == old(issued)
    {
      currentU := u;
      currentV := v;
    }

    /** Opens a batch: the buffer is emptied whatever it held, and the topology recorded. */
    method Begin(mode: int)
      modifies this
      ensures vertexBuffer == [] && drawMode == mode
      // matrices, attributes and log unchanged
      ensures modelMatrix == old(modelMatrix) && matrixStack == old(matrixStack)
      ensures currentR == old(currentR) && currentG == old(currentG) && currentB == old(currentB)
      ensures currentU == old(currentU) && currentV == old(currentV)
      ensures issued == old(issued)
    {
      vertexBuffer := [];
      drawMode := mode;
    }

    /**
     * Appends one vertex: the point through the current matrix, with copies of
     * the current colour and texture coordinate. Earlier vertices stay as they were.
     */
    method Vertex3f(x: real, y: real, z: real)
      modifies this
      ensures var p := Apply(old(modelMatrix), Point(x, y, z));
              vertexBuffer == old(vertexBuffer) +
                [Vertex(p.x, p.y, p.z, old(currentR), old(currentG), old(currentB), old(currentU), old(currentV))]
      // matrices, attributes, mode and log unchanged
      ensures modelMatrix == old(modelMatrix) && matrixStack == old(matrixStack)
      ensures currentR == old(currentR) && currentG == old(currentG) && currentB == old(currentB)
      ensures currentU == old(currentU) && currentV == old(currentV)
      ensures drawMode == old(drawMode) && issued == old(issued)
    {
      var transformed := Apply(modelMatrix, Point(x, y, z));
      vertexBuffer := vertexBuffer + [Vertex(transformed.x, transformed.y, transformed.z,
                                             currentR, currentG, currentB, currentU, currentV)];
    }

    /**
     * Closes the batch: uploads the whole buffer, then issues exactly one draw
     * of the recorded topology over all of it. The buffer is left as it is.
     */
    method End()
      modifies this
      ensures issued == old(issued) + [Upload(vertexBuffer), DrawArrays(drawMode, 0, |vertexBuffer|)]
      // matrices, attributes and batch unchanged
      ensures modelMatrix == old(modelMatrix) && matrixStack == old(matrixStack)
      ensures currentR == old(currentR) && currentG == old(currentG) && currentB == old(currentB)
      ensures currentU == old(currentU) && currentV == old(currentV)
      ensures vertexBuffer == old(vertexBuffer) && drawMode == old(drawMode)
    {
      issued := issued + [Upload(vertexBuffer)];
      issued := issued + [DrawArrays(drawMode, 0, |vertexBuffer|)];
    }

    /** Performs one command by calling its procedure: the object then holds the state `Exec` gives. */
    method Execute(c: Cmd)
      modifies this
      ensures Abs() == Exec(rotation, old(Abs()), c)
    {
      match c
      case Push => PushMatrix();
      case Pop => PopMatrix();
      case Scale(x, y, z) => Scalef(x, y, z);
      case Translate(x, y, z) => Translatef(x, y, z);
      case Rotate(a, x, y, z) => Rotatef(a, x, y, z);
      case Color(r, g, b) => Color3f(r, g, b);
      case TexCoord(u, v) => TexCoord2D(u, v);
      case Begin(t) => Begin(t);
      case Vertex3(x, y, z) => Vertex3f(x, y, z);
      case End => End();
    }
  }
}
