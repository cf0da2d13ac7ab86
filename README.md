# Immediate-mode emulation layer of main.cpp, in Dafny

`main.cpp` emulates the legacy immediate-mode drawing interface on top of a
shader pipeline. A handful of process-wide globals hold the state: the model
matrix and its stack, the current colour and texture coordinate, the vertex
buffer and the recorded topology. The `my*` procedures mutate these globals:

- `myPushMatrix` and `myPopMatrix` save and restore the model matrix;
- `myScalef`, `myTranslatef` and `myRotatef` post-multiply it;
- `myColor3f` and `myTexCoord2D` set the current attributes;
- `myBegin` opens a batch;
- `myVertex3f` appends one transformed vertex with a copy of the attributes;
- `myEnd` uploads the buffer and issues one draw.

`renderCube` drives one batch of twelve vertices. The main loop wraps each call
to it in a push and a pop.

The project has four modules:

- `Linear` (`linear.dfy`): 4x4 matrices over exact reals, stored column by
  column as glm stores them.
  - `Apply(m, v)` is `m * v` and `Mul(a, b)` is `a * b`.
  - `Translation` and `Scaling` are the elementary matrices that `glm::translate` and `glm::scale` post-multiply by.
  - Lemmas: multiplication composes actions and is associative; the identity is neutral; the order of transforms matters.
- `Immediate` (`immediate.dfy`): a reference semantics on values.
  - `State` holds the globals, with a log `issued` of the device calls made by `myEnd`.
  - `Cmd` has one constructor per `my*` procedure. `Exec` is the effect of one command, and `Run` the effect of a sequence.
  - Lemmas cover sequences of calls: stack discipline, underflow as a silent no-op, post-multiplication, append-only accumulation, snapshot isolation of attributes, clear-on-begin, and one upload plus one draw per batch.
- `Render` (`render_context.dfy`): the globals as the fields of class `RenderContext`, with one method per `my*` procedure.
  - Every method modifies only the object and states its whole new state: the fields it sets, and that all others keep their values.
  - `Execute` performs one `Cmd` by calling the corresponding method. It proves the object then holds `Exec` of its old state. So one call is `Exec`, a chain of calls is `Run`, and the `Immediate` lemmas about `Run` describe the object.
- `Demo` (`demo.dfy`): `renderCube` as a method making the same calls in the same order as the source, and one iteration of the main loop's push / renderCube / pop as `Frame`.

The rotation built by `glm::rotate` (radians, trigonometry, axis
normalisation) is a parameter. It is a function from (angle in degrees, axis)
to a matrix, fixed when the context is constructed, and post-multiplied like
the others. The device calls of `myEnd` are modelled as the log `issued`:
`Upload(buffer)` followed by `DrawArrays(mode, 0, count)`.

`main.cpp` keeps no open/closed batch state and guards no call: a vertex call
after `myEnd` still appends, and `myEnd` leaves the buffer as it is. The model
follows this.

## Model

| member | source | states |
|---|---|---|
| Linear.ApplyMul | main.cpp:42-52 | applying a product of matrices is applying the right factor first, then the left: a post-multiplied transform acts on local coordinates before the earlier ones |
| Linear.MulAssoc | main.cpp:42-52 | post-multiplications can be regrouped: (a*b)*c equals a*(b*c) |
| Linear.MulIdentity | main.cpp:24 | the identity matrix the model matrix starts from is neutral on both sides of a product |
| Linear.ApplyIdentity | main.cpp:24 | the identity leaves every vector as it is |
| Linear.TranslateLocal | main.cpp:46-48 | post-multiplying by a translation moves the local point by the offset before the old matrix acts on it |
| Linear.ScaleLocal | main.cpp:42-44 | post-multiplying by a scaling scales the local point before the old matrix acts on it |
| Linear.OrderMatters | main.cpp:197-198 | translating then rotating keeps the local origin at the offset, while rotating then translating rotates the offset |
| Linear.OrderMattersUnlessIdentity | main.cpp:197-198 | unless the rotation is the identity, translate-then-rotate and rotate-then-translate give different matrices |
| Immediate.Initial | main.cpp:19-29 | the program starts with an empty matrix stack and a device log that is well formed and holds no draw |
| Immediate.Exec | main.cpp:31-87 | one call only ever appends to the device log, and only an end call appends anything; every call but a begin keeps the buffer's vertices as a prefix |
| Immediate.RunConcat | main.cpp:31-87 | running two call sequences one after the other is running their concatenation |
| Immediate.StackAbove | main.cpp:31-40 | a call sequence that never pops below its start leaves the stack below untouched, and changes the depth by its net push count |
| Immediate.PushBalancedPop | main.cpp:31-40 | a push, any balanced call sequence (transforms included) and a pop restore both the model matrix and the whole stack |
| Immediate.PopsBeyondDepth | main.cpp:35-40 | pops beyond the stack depth are silent no-ops: the stack ends empty, the matrix is the bottom entry (unchanged if the stack was empty), and nothing else changes |
| Immediate.ExecModel | main.cpp:42-73 | every call other than a pop post-multiplies the model matrix by its elementary matrix, the identity for non-transforms |
| Immediate.TransformsPostMultiply | main.cpp:42-52 | without pops, the final model matrix is the old one post-multiplied by the product of all transforms in call order |
| Immediate.VertexAfterTransforms | main.cpp:42-73 | a vertex after such transforms lands where the old matrix sends its point transformed by that product |
| Immediate.TranslateThenVertex | main.cpp:46-73 | a vertex right after a translation is stored at the old matrix applied to the translated point, with the current colour and texture coordinate |
| Immediate.BufferAppendOnly | main.cpp:70-73 | without a begin, stored vertices never change and exactly one vertex is added per vertex call |
| Immediate.SnapshotIsolation | main.cpp:54-73 | a vertex keeps the colour current at its call after the colour is changed and another vertex is added |
| Immediate.BatchIssuesNothing | main.cpp:54-73 | inside a batch nothing is issued to the device and the recorded topology stays |
| Immediate.BatchEmitsOneDraw | main.cpp:65-87 | begin(t), calls without begin or end, then end: the buffer holds one vertex per vertex call whatever it held before, and exactly one upload and one draw of topology t counting those vertices are issued |
| Immediate.EmptyBatch | main.cpp:65-87 | an empty batch uploads nothing and issues one zero-count draw |
| Immediate.OneBatch | main.cpp:75-87 | what one end call issues is an upload followed by a draw from vertex 0 of exactly the uploaded count |
| Immediate.BatchesAppend | main.cpp:75-87 | logs of well-formed (upload, draw) pairs stay well-formed when joined, and their draw counts add up |
| Immediate.LogIsBatches | main.cpp:75-87 | any call sequence keeps the device log a sequence of (upload, draw) pairs, each draw counting exactly the vertices just uploaded, with one draw per end call |
| Render.RenderContext.constructor | main.cpp:19-29 | the initial state: identity matrix, empty stack, white, texture origin, empty buffer, mode 0, nothing issued |
| Render.RenderContext.PushMatrix | main.cpp:31-33 | the stack gains exactly one entry on top, equal to the current matrix; the matrix and every other field are unchanged |
| Render.RenderContext.PopMatrix | main.cpp:35-40 | a non-empty stack loses its top, which becomes the matrix; an empty stack leaves matrix and stack as they were; nothing else changes |
| Render.RenderContext.Scalef | main.cpp:42-44 | the matrix becomes the old one times the scaling; the stack, attributes, buffer, mode and log are untouched |
| Render.RenderContext.Translatef | main.cpp:46-48 | the matrix becomes the old one times the translation; the stack, attributes, buffer, mode and log are untouched |
| Render.RenderContext.Rotatef | main.cpp:50-52 | the matrix becomes the old one times the rotation for that angle and axis; the stack, attributes, buffer, mode and log are untouched |
| Render.RenderContext.Color3f | main.cpp:54-58 | the colour becomes exactly the arguments, unclamped; nothing else changes |
| Render.RenderContext.TexCoord2D | main.cpp:60-63 | the texture coordinate becomes exactly the arguments, unclamped; nothing else changes |
| Render.RenderContext.Begin | main.cpp:65-68 | the buffer is empty and the mode is the argument, whatever was there before; nothing else changes |
| Render.RenderContext.Vertex3f | main.cpp:70-73 | the buffer is the old buffer plus one vertex at matrix*(x,y,z,1) with the colour and texture coordinate current at the call; nothing else changes |
| Render.RenderContext.End | main.cpp:75-87 | the log gains exactly an upload of the whole buffer followed by one draw of the recorded mode from vertex 0 with the buffer's size; the buffer and everything else are unchanged |
| Render.RenderContext.Execute | main.cpp:31-87 | performing any call through its procedure leaves the object in exactly the state the reference semantics gives |
| Demo.CubeVerticesAreCorners | main.cpp:202-217 | the cube's buffer holds exactly the twelve corners in call order, each through the model matrix |
| Demo.RenderCube | main.cpp:194-222 | one batch: the mode is GL_TRIANGLES, the buffer holds the twelve corners through the translated and rotated matrix in white, one upload and one draw of 12 are issued, the stack is untouched and the matrix keeps the transforms |
| Demo.Frame | main.cpp:256-258 | push / renderCube / pop restores the model matrix and the stack, issues exactly one upload and one 12-vertex triangle draw, and leaves the mode at GL_TRIANGLES, the colour white and the texture coordinate at the origin |
| Demo.CubeModelAtZero | main.cpp:197-198 | at spin 0, with a rotation that is then the identity, the cube's model matrix is the outer one post-multiplied by the translation by -2 along z |
| Demo.CornerShiftedBack | main.cpp:197-217 | at spin 0, with a rotation that is then the identity, each cube vertex is its corner moved by -2 along z before the outer matrix acts; from the identity it is exactly (x, y, z - 2) |

## Left out

- The device plumbing of `myEnd` (main.cpp:76-86) is modelled only as the ordered log entries upload-then-draw with their mode and count. This covers vertex array and buffer binding, the byte size passed to `glBufferData`, texture activation and the `texture1` uniform.
- `Bon_create_texture`, `setupShader` and `setupBuffers` (main.cpp:90-192) are graphics-driver set-up and shader source text with no bookkeeping to state.
- The GLFW window, the frame loop, buffer swapping, event polling, the projection/view/model uniforms and `spin += 5` (main.cpp:224-270) are I/O and animation. `Frame` models one loop iteration's push / renderCube / pop, with `spin` as a parameter.
- Render.RenderContext.Rotatef: does not model the entries of the rotation matrix, because `glm::rotate` and `glm::radians` are foreign library code needing trigonometry; the rotation is a parameter of the context and only its post-multiplication is stated.
- The model uses exact reals for the 32-bit floats of the source, so it claims nothing about rounding. The conversion of the integer `spin` to a float angle is exact here.
- Render.RenderContext.Vertex3f: keeps x, y and z of the transformed point and drops w, as the source's `push_back` does.
- The pixel data of `demo.c` (included at main.cpp:8) is not part of this model.
- There is no open/closed batch state or guard, because main.cpp has none.
