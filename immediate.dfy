/**
 * Reference semantics of the immediate-mode emulation layer: the state the
 * globals of main.cpp hold, one command per my* procedure, and what each
 * command does to the state. The class RenderContext is proved to follow
 * `Exec`; the lemmas here state what sequences of commands do.
 */
module Immediate {
  import opened Linear

  /** The topology value of GL_TRIANGLES (0x0004), the mode renderCube draws with. */
  const GL_TRIANGLES: int := 4

  /** A fully resolved vertex: transformed position, colour and texture coordinate. */
  datatype Vertex = Vertex(x: real, y: real, z: real, r: real, g: real, b: real, u: real, v: real)

  /** The calls the batch emitter makes on the graphics device, in order. */
  datatype GlCall =
    | Upload(data: seq<Vertex>)                   // glBufferData with the whole vertex buffer
    | DrawArrays(mode: int, first: int, count: int)

  /**
   * The rotation matrix built for an angle in degrees and an axis. Its
   * internals (radians, trigonometry, normalising the axis) belong to the
   * matrix library and are not modelled, so it is a parameter here.
   */
  type Rotation = (real, real, real, real) -> Mat4

  /** Everything the emulation layer keeps between calls. `stack` has its top at the end. */
  datatype State = State(
    model: Mat4,
    stack: seq<Mat4>,
    r: real, g: real, b: real,
    u: real, v: real,
    buffer: seq<Vertex>,
    drawMode: int,
    issued: seq<GlCall>)

  /** One call of the emulation layer's interface. */
  datatype Cmd =
    | Push
    | Pop
    | Scale(sx: real, sy: real, sz: real)
    | Translate(tx: real, ty: real, tz: real)
    | Rotate(angle: real, ax: real, ay: real, az: real)
    | Color(cr: real, cg: real, cb: real)
    | TexCoord(cu: real, cv: real)
    | Begin(mode: int)
    | Vertex3(x: real, y: real, z: real)
    | End

  /** The state at program start: identity model matrix, white, texture origin, nothing drawn. */
  function Initial(): (r: State)
    ensures r.stack == [] && Batches(r.issued) && Draws(r.issued) == 0
  {
    State(Identity, [], 1.0, 1.0, 1.0, 0.0, 0.0, [], 0, [])
  }

  /** The vertex a vertex call stores: the point through the model matrix, the current attributes copied. */
  function Snapshot(s: State, x: real, y: real, z: real): Vertex {
    var p := Apply(s.model, Point(x, y, z));
    Vertex(p.x, p.y, p.z, s.r, s.g, s.b, s.u, s.v)
  }

  /** The elementary matrix a transform command post-multiplies by; the identity for the others. */
  function Elementary(rot: Rotation, c: Cmd): Mat4 {
    match c
    case Scale(x, y, z) => Scaling(x, y, z)
    case Translate(x, y, z) => Translation(x, y, z)
    case Rotate(a, x, y, z) => rot(a, x, y, z)
    case _ => Identity
  }

  /**
   * The effect of one command. The device log only grows, and only an end
   * call adds to it; outside a begin the buffer only grows.
   */
  function Exec(rot: Rotation, s: State, c: Cmd): (r: State)
    ensures s.issued <= r.issued
    ensures !c.End? ==> r.issued == s.issued
    ensures !c.Begin? ==> s.buffer <= r.buffer
  {
    match c
    case Push => s.(stack := s.stack + [s.model])
    case Pop =>
      if s.stack == [] then s
      else s.(model := s.stack[|s.stack| - 1], stack := s.stack[..|s.stack| - 1])
    case Scale(x, y, z) => s.(model := Mul(s.model, Scaling(x, y, z)))
    case Translate(x, y, z) => s.(model := Mul(s.model, Translation(x, y, z)))
    case Rotate(a, x, y, z) => s.(model := Mul(s.model, rot(a, x, y, z)))
    case Color(cr, cg, cb) => s.(r := cr, g := cg, b := cb)
    case TexCoord(cu, cv) => s.(u := cu, v := cv)
    case Begin(t) => s.(buffer := [], drawMode := t)
    case Vertex3(x, y, z) => s.(buffer := s.buffer + [Snapshot(s, x, y, z)])
    case End => s.(issued := s.issued + [Upload(s.buffer), DrawArrays(s.drawMode, 0, |s.buffer|)])
  }

  /** The effect of a sequence of commands, first to last. */
  function Run(rot: Rotation, s: State, cmds: seq<Cmd>): State
    decreases |cmds|
  {
    if cmds == [] then s else Run(rot, Exec(rot, s, cmds[0]), cmds[1..])
  }

  lemma {:induction false} RunConcat(rot: Rotation, s: State, a: seq<Cmd>, b: seq<Cmd>)
    ensures Run(rot, s, a + b) == Run(rot, Run(rot, s, a), b)
    decreases |a|
  {
    if a != [] {
      assert (a + b)[0] == a[0];
      assert (a + b)[1..] == a[1..] + b;
      assert Run(rot, s, a) == Run(rot, Exec(rot, s, a[0]), a[1..]);
      RunConcat(rot, Exec(rot, s, a[0]), a[1..], b);
    } else {
      assert a + b == b;
    }
  }

  // ---------------------------------------------------------------- matrix stack

  /**
   * `cmds` never pops a matrix pushed before it started, when `open` of its
   * pops may still be matched by pushes made before it.
   */
  predicate NeverUnderflows(cmds: seq<Cmd>, open: nat)
    decreases |cmds|
  {
    if cmds == [] then true
    else match cmds[0]
      case Push => NeverUnderflows(cmds[1..], open + 1)
      case Pop => open > 0 && NeverUnderflows(cmds[1..], open - 1)
      case _ => NeverUnderflows(cmds[1..], open)
  }

  /** The number of unmatched pushes after `cmds`, starting from `open`. */
  function Depth(cmds: seq<Cmd>, open: int): int
    decreases |cmds|
  {
    if cmds == [] then open
    else match cmds[0]
      case Push => Depth(cmds[1..], open + 1)
      case Pop => Depth(cmds[1..], open - 1)
      case _ => Depth(cmds[1..], open)
  }

  /** Every push in `cmds` is matched by a later pop in `cmds`, and no pop reaches below. */
  predicate Balanced(cmds: seq<Cmd>) {
    NeverUnderflows(cmds, 0) && Depth(cmds, 0) == 0
  }

  /**
   * A command sequence that never underflows leaves the part of the stack
   * below its starting point untouched, and changes the depth by its net push count.
   */
  lemma {:induction false} StackAbove(rot: Rotation, s: State, cmds: seq<Cmd>, base: seq<Mat4>, open: nat)
    requires base <= s.stack && |s.stack| == |base| + open
    requires NeverUnderflows(cmds, open)
    ensures base <= Run(rot, s, cmds).stack
    ensures |Run(rot, s, cmds).stack| == |base| + Depth(cmds, open)
    decreases |cmds|
  {
    if cmds != [] {
      var s' := Exec(rot, s, cmds[0]);
      match cmds[0]
      case Push =>
        StackAbove(rot, s', cmds[1..], base, open + 1);
      case Pop =>
        assert s.stack != [];
        StackAbove(rot, s', cmds[1..], base, open - 1);
      case _ =>
        StackAbove(rot, s', cmds[1..], base, open);
    }
  }

  /**
   * A push, then any balanced sequence of commands, then a pop restores the
   * model matrix and the stack (the main loop's push / renderCube / pop).
   */
  lemma PushBalancedPop(rot: Rotation, s: State, cmds: seq<Cmd>)
    requires Balanced(cmds)
    ensures Run(rot, s, [Push] + cmds + [Pop]).model == s.model
    ensures Run(rot, s, [Push] + cmds + [Pop]).stack == s.stack
  {
    var pushed := Exec(rot, s, Push);
    RunConcat(rot, s, [Push], cmds);
    RunConcat(rot, s, [Push] + cmds, [Pop]);
    assert Run(rot, s, [Push]) == Run(rot, pushed, []);
    StackAbove(rot, pushed, cmds, pushed.stack, 0);
    var t := Run(rot, pushed, cmds);
    assert t.stack == s.stack + [s.model];
    assert Run(rot, t, [Pop]) == Exec(rot, t, Pop);
  }

  /** `n` pops in a row. */
  function Pops(n: nat): (r: seq<Cmd>)
    ensures |r| == n
  {
    if n == 0 then [] else [Pop] + Pops(n - 1)
  }

  /**
   * Pops beyond the depth of the stack are silent no-ops: however many extra
   * there are, the stack ends empty, the model matrix is the bottom entry (or
   * unchanged if the stack started empty), and nothing else changes.
   */
  lemma {:induction false} PopsBeyondDepth(rot: Rotation, s: State, n: nat)
    requires n >= |s.stack|
    ensures Run(rot, s, Pops(n)) == s.(stack := [], model := if s.stack == [] then s.model else s.stack[0])
    decreases n
  {
    if n > 0 {
      var s' := Exec(rot, s, Pop);
      assert Pops(n)[0] == Pop && Pops(n)[1..] == Pops(n - 1);
      PopsBeyondDepth(rot, s', n - 1);
      if s.stack != [] {
        assert s'.stack == [] ==> s'.model == s.stack[0];
        assert s'.stack != [] ==> s'.stack[0] == s.stack[0];
      }
    }
  }

  // ------------------------------------------------------------- transforms

  /** The product of the elementary matrices of `cmds`, in call order. */
  function Product(rot: Rotation, cmds: seq<Cmd>): Mat4
    decreases |cmds|
  {
    if cmds == [] then Identity else Mul(Elementary(rot, cmds[0]), Product(rot, cmds[1..]))
  }

  /** One command other than a pop post-multiplies the model matrix by its elementary matrix. */
  lemma ExecModel(rot: Rotation, s: State, c: Cmd)
    requires !c.Pop?
    ensures Exec(rot, s, c).model == Mul(s.model, Elementary(rot, c))
  {
    if !(c.Scale? || c.Translate? || c.Rotate?) {
      MulIdentity(s.model);
    }
  }

  /**
   * Without pops, the model matrix after `cmds` is the old one post-multiplied
   * by every transform in call order, so the last transform called is the
   * first applied to a vertex.
   */

  lemma {:induction false} TransformsPostMultiply(rot: Rotation, s: State, cmds: seq<Cmd>)
    requires forall i :: 0 <= i < |cmds| ==> !cmds[i].Pop?
    ensures Run(rot, s, cmds).model == Mul(s.model, Product(rot, cmds))
    decreases |cmds|
  {
    if cmds == [] {
      MulIdentity(s.model);
    } else {
      var s' := Exec(rot, s, cmds[0]);
      ExecModel(rot, s, cmds[0]);
      TransformsPostMultiply(rot, s', cmds[1..]);
      MulAssoc(s.model, Elementary(rot, cmds[0]), Product(rot, cmds[1..]));
    }
  }

  /** A vertex specified after `cmds` lands where the old model matrix sends its locally transformed point. */
  lemma VertexAfterTransforms(rot: Rotation, s: State, cmds: seq<Cmd>, x: real, y: real, z: real)
    requires forall i :: 0 <= i < |cmds| ==> !cmds[i].Pop?
    ensures Apply(Run(rot, s, cmds).model, Point(x, y, z)) == Apply(s.model, Apply(Product(rot, cmds), Point(x, y, z)))
  {
    TransformsPostMultiply(rot, s, cmds);
    ApplyMul(s.model, Product(rot, cmds), Point(x, y, z));
  }

  /**
   * A vertex specified right after a translation is stored at the old model
   * matrix applied to the translated point, with the current attributes.
   */
  lemma TranslateThenVertex(rot: Rotation, s: State, tx: real, ty: real, tz: real, x: real, y: real, z: real)
    ensures var p := Apply(s.model, Point(x + tx, y + ty, z + tz));
            Run(rot, s, [Translate(tx, ty, tz), Vertex3(x, y, z)]).buffer ==
              s.buffer + [Vertex(p.x, p.y, p.z, s.r, s.g, s.b, s.u, s.v)]
  {
    var cmds := [Translate(tx, ty, tz), Vertex3(x, y, z)];
    var s1 := Exec(rot, s, cmds[0]);
    var s2 := Exec(rot, s1, cmds[1]);
    assert Run(rot, s, cmds) == Run(rot, s1, cmds[1..]);
    assert Run(rot, s1, cmds[1..]) == s2;
    TranslateLocal(s.model, tx, ty, tz, x, y, z);
    assert s2.buffer == s.buffer + [Snapshot(s1, x, y, z)];
  }

  // --------------------------------------------------------- vertex accumulator

  /** The number of vertex calls in `cmds`. */
  function Vertices(cmds: seq<Cmd>): nat
    decreases |cmds|
  {
    if cmds == [] then 0 else (if cmds[0].Vertex3? then 1 else 0) + Vertices(cmds[1..])
  }

  /**
   * Without a begin, the vertex buffer only grows: the vertices already stored
   * stay as they are (later attribute or matrix changes never reach them) and
   * one vertex is added per vertex call.
   */
  lemma {:induction false} BufferAppendOnly(rot: Rotation, s: State, cmds: seq<Cmd>)
    requires forall i :: 0 <= i < |cmds| ==> !cmds[i].Begin?
    ensures s.buffer <= Run(rot, s, cmds).buffer
    ensures |Run(rot, s, cmds).buffer| == |s.buffer| + Vertices(cmds)
    decreases |cmds|
  {
    if cmds != [] {
      BufferAppendOnly(rot, Exec(rot, s, cmds[0]), cmds[1..]);
    }
  }

  /**
   * Attribute snapshots are by value: a vertex specified with colour c1 keeps
   * c1 after the colour is changed to c2 and another vertex is specified.
   */
  lemma SnapshotIsolation(rot: Rotation, s: State, c1: (real, real, real), c2: (real, real, real),
                          p: (real, real, real), q: (real, real, real))
    ensures var t := Run(rot, s, [Color(c1.0, c1.1, c1.2), Vertex3(p.0, p.1, p.2),
                                  Color(c2.0, c2.1, c2.2), Vertex3(q.0, q.1, q.2)]);
            |t.buffer| == |s.buffer| + 2 &&
            t.buffer[..|s.buffer|] == s.buffer &&
            (t.buffer[|s.buffer|].r, t.buffer[|s.buffer|].g, t.buffer[|s.buffer|].b) == c1 &&
            (t.buffer[|s.buffer| + 1].r, t.buffer[|s.buffer| + 1].g, t.buffer[|s.buffer| + 1].b) == c2
  {
    var cmds := [Color(c1.0, c1.1, c1.2), Vertex3(p.0, p.1, p.2), Color(c2.0, c2.1, c2.2), Vertex3(q.0, q.1, q.2)];
    var s1 := Exec(rot, s, cmds[0]);
    var s2 := Exec(rot, s1, cmds[1]);
    var s3 := Exec(rot, s2, cmds[2]);
    var s4 := Exec(rot, s3, cmds[3]);
    assert Run(rot, s, cmds) == Run(rot, s1, cmds[1..]);
    assert Run(rot, s1, cmds[1..]) == Run(rot, s2, cmds[2..]);
    assert Run(rot, s2, cmds[2..]) == Run(rot, s3, cmds[3..]);
    assert Run(rot, s3, cmds[3..]) == s4;
    assert s4.buffer == s.buffer + [Snapshot(s1, p.0, p.1, p.2), Snapshot(s3, q.0, q.1, q.2)];
  }

  // ------------------------------------------------------------- batch emitter

  /** A command that may appear between a begin and its end. */
  predicate InBatch(c: Cmd) {
    !c.Begin? && !c.End?
  }

  /** Inside a batch nothing is issued to the device and the topology stays recorded. */
  lemma {:induction false} BatchIssuesNothing(rot: Rotation, s: State, cmds: seq<Cmd>)
    requires forall i :: 0 <= i < |cmds| ==> InBatch(cmds[i])
    ensures Run(rot, s, cmds).issued == s.issued
    ensures Run(rot, s, cmds).drawMode == s.drawMode
    decreases |cmds|
  {
    if cmds != [] {
      BatchIssuesNothing(rot, Exec(rot, s, cmds[0]), cmds[1..]);
    }
  }

  /**
   * A batch (begin with topology t, any commands without begin or end, end)
   * issues exactly one upload of the accumulated vertices followed by exactly
   * one draw with topology t and a count equal to the number of vertex calls,
   * whatever the buffer held before the batch.
   */
  lemma BatchEmitsOneDraw(rot: Rotation, s: State, t: int, cmds: seq<Cmd>)
    requires forall i :: 0 <= i < |cmds| ==> InBatch(cmds[i])
    ensures var e := Run(rot, s, [Begin(t)] + cmds + [End]);
            |e.buffer| == Vertices(cmds) &&
            e.drawMode == t &&
            e.issued == s.issued + [Upload(e.buffer), DrawArrays(t, 0, Vertices(cmds))]
  {
    var started := Exec(rot, s, Begin(t));
    RunConcat(rot, s, [Begin(t)], cmds);
    RunConcat(rot, s, [Begin(t)] + cmds, [End]);
    assert Run(rot, s, [Begin(t)]) == Run(rot, started, []);
    forall i | 0 <= i < |cmds| ensures !cmds[i].Begin? {
      assert InBatch(cmds[i]);
    }
    BufferAppendOnly(rot, started, cmds);
    BatchIssuesNothing(rot, started, cmds);
    var closing := Run(rot, started, cmds);
    assert Run(rot, closing, [End]) == Exec(rot, closing, End);
  }

  /** An empty batch issues an upload of nothing and a draw of zero vertices. */
  lemma EmptyBatch(rot: Rotation, s: State, t: int)
    ensures Run(rot, s, [Begin(t), End]).issued == s.issued + [Upload([]), DrawArrays(t, 0, 0)]
  {
    BatchEmitsOneDraw(rot, s, t, []);
    assert [Begin(t)] + [] + [End] == [Begin(t), End];
  }

  /**
   * The device log is a sequence of (upload, draw) pairs in which each draw
   * starts at vertex 0 and counts exactly the vertices just uploaded.
   */
  predicate Batches(log: seq<GlCall>)
    decreases |log|
  {
    if log == [] then true
    else |log| >= 2 && log[0].Upload? && log[1].DrawArrays? &&
         log[1].first == 0 && log[1].count == |log[0].data| && Batches(log[2..])
  }

  /** The number of draws in a device log. */
  function Draws(log: seq<GlCall>): nat
    decreases |log|
  {
    if log == [] then 0 else (if log[0].DrawArrays? then 1 else 0) + Draws(log[1..])
  }

  /** The number of end calls in `cmds`. */
  function Ends(cmds: seq<Cmd>): nat
    decreases |cmds|
  {
    if cmds == [] then 0 else (if cmds[0].End? then 1 else 0) + Ends(cmds[1..])
  }

  lemma {:induction false} BatchesAppend(a: seq<GlCall>, b: seq<GlCall>)
    requires Batches(a) && Batches(b)
    ensures Batches(a + b)
    ensures Draws(a + b) == Draws(a) + Draws(b)
    decreases |a|
  {
    if a == [] {
      assert a + b == b;
    } else {
      assert (a + b)[2..] == a[2..] + b;
      assert (a + b)[1..][1..] == a[2..] + b;
      BatchesAppend(a[2..], b);
    }
  }

  /** What one end call issues is a well-formed log with one draw. */
  lemma OneBatch(buffer: seq<Vertex>, mode: int)
    ensures Batches([Upload(buffer), DrawArrays(mode, 0, |buffer|)])
    ensures Draws([Upload(buffer), DrawArrays(mode, 0, |buffer|)]) == 1
  {
    var pair := [Upload(buffer), DrawArrays(mode, 0, |buffer|)];
    assert pair[2..] == [];
    var last := pair[1..];
    assert last == [DrawArrays(mode, 0, |buffer|)];
    assert last[1..] == [];
    assert Draws(last) == 1 + Draws(last[1..]);
    assert Draws(pair) == 0 + Draws(last);
  }

  /**
   * Every end issues one upload followed by one draw of exactly what was
   * uploaded (upload happens before draw, and the draw carries the count
   * captured at that end), and there is one draw per end call.
   */
  lemma {:induction false} LogIsBatches(rot: Rotation, s: State, cmds: seq<Cmd>)
    requires Batches(s.issued)
    ensures Batches(Run(rot, s, cmds).issued)
    ensures Draws(Run(rot, s, cmds).issued) == Draws(s.issued) + Ends(cmds)
    decreases |cmds|
  {
    if cmds != [] {
      var s' := Exec(rot, s, cmds[0]);
      if cmds[0].End? {
        OneBatch(s.buffer, s.drawMode);
        BatchesAppend(s.issued, [Upload(s.buffer), DrawArrays(s.drawMode, 0, |s.buffer|)]);
      }
      LogIsBatches(rot, s', cmds[1..]);
    }
  }
}
