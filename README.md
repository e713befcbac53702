# physics-sandbox: the GPU binding layer and the per-frame body sync, in Dafny

This project models the core of the physics sandbox:
- the GPU resource-binding layer of `sandbox.graphics`: shaders, programs, attributes, uniforms, typed vertex buffers and the `program { ... }` builder;
- the synchronisation in `sandbox.physics` that maps every game object of a dyn4j world onto vertex buffers and draws it each frame.

The OpenGL context is modelled abstractly (module `Gl`).
- Every GL call that changes drawing or object state is appended to a call log: shader source and compile, attach and detach, link, use, bind, buffer upload, enable and disable, attribute pointer, uniform writes, draws and deletes. Creating names (glCreateShader, glCreateProgram, glGenBuffers) and queries (glGetShaderiv, glGetProgramiv, the info logs, glGet*Location) are not logged.
- The drawing state the core relies on is defined as the replay of that log: the ARRAY_BUFFER binding, the enabled vertex attribute arrays and the contents of each buffer.
- Compile status, link status, the info logs and the attribute and uniform location queries are oracles, fixed when the context is built.
- Shader and program object state (stage, source, compile flag, attachments, link flag) is kept in fields that the GL methods update.

An operation that may throw is modelled with a `Run`: how it ended (`Pass`, or `Fail` with the exception as an `Error` value) and the GL calls it made before ending. Sequential composition `Then` runs the second part only if the first returned normally.

Each Kotlin class whose state the code updates is a Dafny class:
- `Program`: its handle, its attribute and uniform maps, its attached-shader list.
- `Attribute` and `Uniform`: the `ident by lazy` cache becomes an `Option<int>` field.
- `Vbo`, `GameObject` and `GameWorld`.

For each state-changing method, the call log and outcome are tied to a pure specification function. That function is then explained by lemmas, for example:
- exactly which calls a frame makes when every buffer is present;
- that the MVP matrix is written first and only once;
- how `withAttribute` leaves the bound buffer and the enabled attribute arrays.

Behaviour of the code a reader may not expect:
- A uniform's size is not bounded below. Only `matrix && size == 1` and `size > 4` are rejected (Uniform.kt:24-31), so a size of 0 or below is accepted. `Uniforms.NumberAcceptedShapes` shows one consequence: a matrix uniform of size -1 accepts `set(Number)`.
- `validate` squares a matrix uniform's size as a 32-bit Int, which wraps below -46340. The model wraps it too (`Uniforms.Wrap32`). `Uniforms.WrappedSquareAccepts` shows the effect: a matrix uniform of size -65536 accepts an empty array.
- `withAttribute` has no `finally`. If the body throws, the attribute array stays enabled (`Vbos.WithAttributeDrawState`).
- Attaching a shader after a successful link is not refused.
- `close` is not guarded against a second call: each call issues another delete.
- `link` forces every attribute before any uniform, so an unresolvable attribute is the error reported even when a uniform is unresolvable too, and the uniforms are then left unresolved.
- `lineColor` is computed from the property initialiser's three random draws. The `init` block then overwrites `color` in place with three new draws. So the outline colour is not the darkened fill colour in general (`GameObjects.GameObject.constructor`).
- `set(IntArray)` on a matrix uniform first makes the float upload and then continues to the integer `when(size)`, so it issues both calls (`Uniforms.IntArrayUpload`).

## Model

| member | source | states |
|---|---|---|
| `Shaders.ToGLConstant` | src/main/kotlin/sandbox/graphics/Shader.kt:40-49 | each stage maps to one of the six GL shader-type constants |
| `Shaders.FromGLConstant` | src/main/kotlin/sandbox/graphics/Shader.kt:40-49 | a GL constant decodes only to the stage whose `toGLConstant` it is |
| `Shaders.ToGLConstantRoundTrip` | src/main/kotlin/sandbox/graphics/Shader.kt:40-49 | every stage's constant decodes back to that stage |
| `Shaders.ToGLConstantInjective` | src/main/kotlin/sandbox/graphics/Shader.kt:40-49 | two stages have the same GL constant if and only if they are the same stage |
| `Shaders.Shader.constructor` | src/main/kotlin/sandbox/graphics/Shader.kt:11-21 | the init block creates a fresh non-zero handle for the stage's constant, records the source and the compile status the context gives that source, and logs exactly the source upload and the compile |
| `Shaders.Shader.IsCompiled` | src/main/kotlin/sandbox/graphics/Shader.kt:25-29 | the result is the compile status recorded for this shader's handle |
| `Shaders.Shader.Close` | src/main/kotlin/sandbox/graphics/Shader.kt:31-33 | exactly one glDeleteShader of this handle is issued |
| `Shaders.NewShader` | src/main/kotlin/sandbox/graphics/Shader.kt:15-21 | construction succeeds if and only if the source compiles for the stage; a failure is ShaderCompilationException carrying that shader's info log; both paths issue only the source upload and the compile |
| `Attributes.Attribute.constructor` | src/main/kotlin/sandbox/graphics/Attribute.kt:8 | program, name and arity are stored; the location is not yet resolved |
| `Attributes.Attribute.Ident` | src/main/kotlin/sandbox/graphics/Attribute.kt:9-18 | reading `ident` yields the cached location, else NotLinked before link, else InvalidAttribute(name) for location -1, else the location; only a success is cached, a cached value is never replaced, and what a later read yields is unchanged |
| `Attributes.Attribute.Enable` | src/main/kotlin/sandbox/graphics/Attribute.kt:22-24 | a failed resolution throws it and issues nothing; otherwise exactly glEnableVertexAttribArray of the location |
| `Attributes.Attribute.Disable` | src/main/kotlin/sandbox/graphics/Attribute.kt:26-28 | a failed resolution throws it and issues nothing; otherwise exactly glDisableVertexAttribArray of the location |
| `Uniforms.CheckShape` | src/main/kotlin/sandbox/graphics/Uniform.kt:24-31 | a shape is accepted if and only if it is not a 1x1 matrix and its size is at most 4; the 1x1 matrix error is reported first, any other rejection is the size error |
| `Uniforms.Wrap32` | src/main/kotlin/sandbox/graphics/Uniform.kt:36 | the 32-bit two's-complement value congruent to the product, which is the product itself whenever that fits in an Int |
| `Uniforms.Validate` | src/main/kotlin/sandbox/graphics/Uniform.kt:33-44 | a count passes if and only if it equals the expected count: for a matrix the square of the size taken as a wrapping 32-bit Int, otherwise the size; a failure names the count and the size |
| `Uniforms.FloatCall` | src/main/kotlin/sandbox/graphics/Uniform.kt:74-79 | the float `when(size)` takes a branch if and only if the size is 1-4. Size 1 picks glUniform1fv even for a matrix; sizes 2-4 pick glUniformMatrixNfv for a matrix and glUniformNfv otherwise, each consuming size*size or size values |
| `Uniforms.IntCall` | src/main/kotlin/sandbox/graphics/Uniform.kt:51-56 | the integer `when(size)` takes a branch if and only if the size is 1-4, and picks the integer vector entry point glUniformNiv of that size |
| `Uniforms.FloatDispatchMatchesValidate` | src/main/kotlin/sandbox/graphics/Uniform.kt:72-80 | for each accepted shape of positive size, the float `when(size)` picks an entry point that consumes exactly the count validate demands |
| `Uniforms.OneByOneMatrixIsRejected` | src/main/kotlin/sandbox/graphics/Uniform.kt:24-27 | the 1x1 matrix, which would be sent through the plain glUniform1fv, is rejected by the init block |
| `Uniforms.IntDispatchMatchesValidate` | src/main/kotlin/sandbox/graphics/Uniform.kt:51-56 | for vector sizes 1-4 the integer entry point consumes exactly `size` values |
| `Uniforms.ToReals` | src/main/kotlin/sandbox/graphics/Uniform.kt:49 | element-wise Int-to-Float conversion of the same length |
| `Uniforms.FloatUpload` | src/main/kotlin/sandbox/graphics/Uniform.kt:72-90 | a shape mismatch throws before anything is issued. After a passing validate: with a branch taken, an unresolved location throws its error with nothing issued and a resolved one issues exactly the selected entry point with the location and the values; with no branch taken it issues nothing and passes |
| `Uniforms.IntArrayUpload` | src/main/kotlin/sandbox/graphics/Uniform.kt:46-57 | a shape mismatch throws before anything is issued. After a passing validate, for sizes 1-4: an unresolved location throws its error with nothing issued; a vector uniform issues exactly its integer call at the location; a matrix uniform issues the float upload of the converted values and then the integer call. Other sizes issue nothing |
| `Uniforms.IntBufferUpload` | src/main/kotlin/sandbox/graphics/Uniform.kt:59-70 | a shape mismatch throws before anything is issued; for a vector uniform it behaves exactly as set(IntArray) |
| `Uniforms.Matrix4Upload` | src/main/kotlin/sandbox/graphics/Uniform.kt:92-99 | it passes if and only if the uniform is a 4x4 matrix whose location resolves, and then issues exactly one glUniformMatrix4fv of the 16 values; any other shape throws before resolving and issues nothing |
| `Uniforms.NumberUpload` | src/main/kotlin/sandbox/graphics/Uniform.kt:101-110 | unless one value is the expected count it throws the count-1 mismatch with nothing issued. Otherwise an unresolved location throws its error, an Int issues exactly glUniform1i of it and a Float exactly glUniform1f of it at the location, and another class issues nothing |
| `Uniforms.NumberAcceptedShapes` | src/main/kotlin/sandbox/graphics/Uniform.kt:101-102 | among accepted shapes of size at least -46340 (where the square does not wrap), a single value validates exactly for the size-1 vector and the size -1 matrix |
| `Uniforms.WrappedSquareAccepts` | src/main/kotlin/sandbox/graphics/Uniform.kt:33-44 | below -46340 the wrapping square admits more: a size -65536 matrix uniform validates an empty array, and a size -2147483647 matrix uniform validates one value, so set(Number) writes it |
| `Uniforms.Uniform.constructor` | src/main/kotlin/sandbox/graphics/Uniform.kt:12-31 | an accepted shape is stored with the program and name, unresolved |
| `Uniforms.Uniform.Ident` | src/main/kotlin/sandbox/graphics/Uniform.kt:13-22 | reading `ident`: the cached location, else NotLinked, else InvalidUniform(name) for -1, else the location; only a success is cached and a cached value never changes |
| `Uniforms.Uniform.SetFloats` | src/main/kotlin/sandbox/graphics/Uniform.kt:72-90 | the outcome and the calls are those of FloatUpload for this uniform's shape and current resolution, and the resolution is unchanged |
| `Uniforms.Uniform.SetInts` | src/main/kotlin/sandbox/graphics/Uniform.kt:46-57 | the outcome and the calls are those of IntArrayUpload, including the matrix re-dispatch |
| `Uniforms.Uniform.SetIntBuffer` | src/main/kotlin/sandbox/graphics/Uniform.kt:59-70 | the outcome and the calls are those of IntBufferUpload |
| `Uniforms.Uniform.SetMatrix4` | src/main/kotlin/sandbox/graphics/Uniform.kt:92-99 | the outcome and the calls are those of Matrix4Upload |
| `Uniforms.Uniform.SetNumber` | src/main/kotlin/sandbox/graphics/Uniform.kt:101-110 | the outcome and the calls are those of NumberUpload |
| `Uniforms.NewUniform` | src/main/kotlin/sandbox/graphics/Uniform.kt:24-31 | construction fails if and only if the shape is rejected, with the init block's error; otherwise a fresh unresolved uniform with the given fields |
| `Vbos.BufferTypeToGL` | src/main/kotlin/sandbox/graphics/VBO.kt:53-59 | each usage hint maps to one of GL_STATIC_DRAW, GL_DYNAMIC_DRAW and GL_STREAM_DRAW |
| `Vbos.BufferTypeFromGL` | src/main/kotlin/sandbox/graphics/VBO.kt:53-59 | a usage constant decodes only to the hint whose `toGLConstant` it is |
| `Vbos.BufferTypeRoundTrip` | src/main/kotlin/sandbox/graphics/VBO.kt:53-59 | every hint's constant decodes back to that hint |
| `Vbos.ClassToGLType` | src/main/kotlin/sandbox/graphics/VBO.kt:71-80 | defined exactly for Int, Short, Double, Float and Byte, giving one of the five GL type constants; any other class throws UnsupportedOperationException naming it |
| `Vbos.VariantTypeAgreesWithClassToGLType` | src/main/kotlin/sandbox/graphics/VBO.kt:82-159 | each concrete buffer class's hard-coded GL type is the one classToGLType gives its element class |
| `Vbos.ValidateArity` | src/main/kotlin/sandbox/graphics/VBO.kt:42-48 | arity 0 throws (division by zero); otherwise a count passes if and only if it is a multiple of the arity, and a failure reports the remainder |
| `Vbos.PushRun` | src/main/kotlin/sandbox/graphics/VBO.kt:82-159 | it returns normally if and only if the class does not check arity (ByteBufferVBO) or the data passes validateArity; a rejected upload throws that error before any call; a successful one is exactly bind, glBufferData with the usage hint, unbind |
| `Vbos.PushStoresAndUnbinds` | src/main/kotlin/sandbox/graphics/VBO.kt:82-159 | after a successful upload the buffer holds exactly the data, ARRAY_BUFFER is unbound, the enabled arrays are unchanged, and for a validating class the data is a whole number of tuples |
| `Vbos.StepsRun` | src/main/kotlin/sandbox/graphics/VBO.kt:34 | the body issues at most one call per statement, each a uniform write or a draw |
| `Vbos.StepsRunStopsAtFirstThrow` | src/main/kotlin/sandbox/graphics/VBO.kt:34 | the body returns normally if and only if every statement does, and otherwise throws what the first throwing statement throws |
| `Vbos.StepsKeepDrawState` | src/main/kotlin/sandbox/graphics/VBO.kt:34 | the body of withAttribute (uniform writes and draws) leaves the binding, enabled arrays and stores as they were |
| `Vbos.WithAttributeRun` | src/main/kotlin/sandbox/graphics/VBO.kt:27-36 | it returns normally if and only if the arities agree, the attribute resolves and the body returns normally, and then the calls are bind, enable, attribute pointer with the buffer's arity and GL type, the body's calls, disable. An arity conflict throws before any call; an unresolved attribute throws after the bind alone; a throwing body ends the run after its own calls, with no disable |
| `Vbos.WithAttributeDrawState` | src/main/kotlin/sandbox/graphics/VBO.kt:27-36 | an arity conflict changes no drawing state; after a normal return the buffer stays bound and the attribute is disabled; if the body throws the attribute stays enabled |
| `Vbos.Vbo.constructor` | src/main/kotlin/sandbox/graphics/VBO.kt:10-15 | class, usage and arity are stored and a fresh non-zero buffer name is generated |
| `Vbos.Vbo.Activate` | src/main/kotlin/sandbox/graphics/VBO.kt:19-21 | exactly one bind of this buffer to ARRAY_BUFFER |
| `Vbos.Vbo.UnbindBuffer` | src/main/kotlin/sandbox/graphics/VBO.kt:23-25 | exactly one bind of 0 to ARRAY_BUFFER |
| `Vbos.Vbo.PushData` | src/main/kotlin/sandbox/graphics/VBO.kt:82-159 | the outcome and calls are PushRun's; on success the resulting drawing state has this buffer's store set to the data and nothing bound, and on failure the drawing state is untouched |
| `Vbos.Vbo.WithAttribute` | src/main/kotlin/sandbox/graphics/VBO.kt:27-36 | the outcome and calls are WithAttributeRun's for this buffer, the attribute's arity and resolution and the uniform's shape and resolution; both resolutions are unchanged |
| `Vbos.Vbo.Open` | src/main/kotlin/sandbox/graphics/VBO.kt:31-33 | bind, then either the attribute's resolution error, or enable and attribute pointer at the resolved location |
| `Vbos.Vbo.RunSteps` | src/main/kotlin/sandbox/graphics/VBO.kt:34 | the body runs step by step, stopping at the first throw, with exactly StepsRun's outcome and calls |
| `Vbos.Vbo.RunStep` | src/main/kotlin/sandbox/graphics/VBO.kt:34 | one statement of the body: a colour write is set(FloatArray), a draw is one glDrawArrays |
| `Vbos.Vbo.Close` | src/main/kotlin/sandbox/graphics/VBO.kt:38-40 | exactly one glDeleteBuffers of this buffer |
| `Programs.Program.constructor` | src/main/kotlin/sandbox/graphics/Program.kt:13-20 | a fresh non-zero program name, empty maps and an empty attach list |
| `Programs.Program.AttachShader` | src/main/kotlin/sandbox/graphics/Program.kt:22-25 | the shader is appended to the list, glAttachShader is logged, and only this program's attachment set gains the shader |
| `Programs.Program.DeclareAttribute` | src/main/kotlin/sandbox/graphics/Program.kt:27-29 | a fresh unresolved attribute of that arity is put under the name, replacing only that entry |
| `Programs.Program.DeclareUniformOf` | src/main/kotlin/sandbox/graphics/Program.kt:31-37 | the outcome is the shape check; a rejected shape leaves the map as it was, and an accepted one puts a fresh unresolved uniform under the name, replacing only that entry |
| `Programs.Program.DeclareUniform` | src/main/kotlin/sandbox/graphics/Program.kt:31-33 | as DeclareUniformOf for a vector uniform |
| `Programs.Program.DeclareMatrixUniform` | src/main/kotlin/sandbox/graphics/Program.kt:35-37 | as DeclareUniformOf for a matrix uniform; size 1 is rejected with the map unchanged |
| `Programs.Program.Get` | src/main/kotlin/sandbox/graphics/Program.kt:39-41 | succeeds if and only if the name was declared, with that attribute; otherwise IllegalStateException naming the key |
| `Programs.Program.GetUniform` | src/main/kotlin/sandbox/graphics/Program.kt:43-45 | succeeds if and only if the name was declared, with that uniform; otherwise IllegalStateException naming the key |
| `Programs.Program.IsLinked` | src/main/kotlin/sandbox/graphics/Program.kt:57-61 | the link status recorded for this program |
| `Programs.Program.DetachShaders` | src/main/kotlin/sandbox/graphics/Program.kt:75-80 | one glDetachShader per listed shader, in list order; the list is cleared; the attachment set loses exactly those shaders and other programs are untouched |
| `Programs.Program.LookupAttributes` | src/main/kotlin/sandbox/graphics/Program.kt:63-67 | passes if and only if every declared attribute resolves, and then every one is cached; a failure is the resolution error of some declared attribute; cached locations never change |
| `Programs.Program.LookupUniforms` | src/main/kotlin/sandbox/graphics/Program.kt:69-73 | the same for every declared uniform |
| `Programs.Program.Link` | src/main/kotlin/sandbox/graphics/Program.kt:47-55 | the link status is the context's verdict on the attached shaders. A failed link throws the info log and has detached and resolved nothing. A successful one detaches every shader in order, then passes if and only if every attribute and uniform resolves, all then cached. If some attribute does not resolve, the error is an attribute's and no uniform has been resolved. Other programs' attachments are unchanged |
| `Programs.Program.Resolve` | src/main/kotlin/sandbox/graphics/Program.kt:52-54 | detach every shader, then resolve the attributes and then the uniforms: passes if and only if all resolve; an unresolvable attribute's error wins and leaves the uniforms untouched. Other programs' attachments are unchanged |
| `Programs.Program.LookupBindings` | src/main/kotlin/sandbox/graphics/Program.kt:53-54 | lookupAttributes, then lookupUniforms only if no attribute threw: passes if and only if every binding resolves, and an unresolvable attribute leaves every uniform as it was |
| `Programs.Program.Close` | src/main/kotlin/sandbox/graphics/Program.kt:82-85 | detaches what is still attached, in order, then exactly one glDeleteProgram; other programs' attachments are unchanged |
| `Dsl.AttributeDeclsMeaning` | src/main/kotlin/sandbox/graphics/Program.kt:27-29 | a name is in the declared attribute map if and only if some statement of the block declares it, and its arity is that of its last declaration |
| `Dsl.UniformDeclsMeaning` | src/main/kotlin/sandbox/graphics/Program.kt:31-37 | a name is in the declared uniform map if and only if some statement of the block declares it as a uniform or a matrix uniform, and its size and matrix flag are those of its last declaration |
| `Dsl.AttachStage` | src/main/kotlin/sandbox/graphics/DSL.kt:16-34 | the helper passes if and only if the code compiles for the stage; a failure carries the info log and attaches nothing; success appends one fresh compiled shader of that stage and source, attached to the program |
| `Dsl.VertexShaderOf` | src/main/kotlin/sandbox/graphics/DSL.kt:16-18 | passes if and only if the code compiles as a vertex shader, and then appends one vertex-stage shader |
| `Dsl.FragmentShaderOf` | src/main/kotlin/sandbox/graphics/DSL.kt:24-26 | passes if and only if the code compiles as a fragment shader, and then appends one fragment-stage shader |
| `Dsl.GeometryShaderOf` | src/main/kotlin/sandbox/graphics/DSL.kt:32-34 | passes if and only if the code compiles as a geometry shader, and then appends one geometry-stage shader |
| `Dsl.ShaderStatement` | src/main/kotlin/sandbox/graphics/DSL.kt:16-34 | a shader statement of the block takes the next object name and logs source, compile and, if it compiled, the attach; on a normal return the attach list gains that shader in the statement's stage |
| `Dsl.DeclarationStatement` | src/main/kotlin/sandbox/graphics/Program.kt:27-37 | a declaration statement logs nothing, throws only a rejected uniform shape, and on a normal return the maps are what the statements so far declare |
| `Dsl.RunInit` | src/main/kotlin/sandbox/graphics/DSL.kt:11 | the receiver block on a fresh program runs its statements in order up to the first throw, with exactly InitRun's outcome and calls; on a normal return the maps and attach list are what the block declares and attaches, every binding fresh and unresolved |
| `Dsl.LinkedBindings` | src/main/kotlin/sandbox/graphics/Program.kt:63-73 | on the built, linked program, every attribute (uniform) resolves if and only if each declared name has a location, and a binding that does not resolve fails with InvalidAttribute (InvalidUniform) of its own name |
| `Dsl.LinkBuilt` | src/main/kotlin/sandbox/graphics/DSL.kt:12 | link on the built program: a link failure throws the info log; otherwise the shaders are detached and it passes if and only if every declared name has a location, an attribute without one being the error reported first |
| `Dsl.BuildProgram` | src/main/kotlin/sandbox/graphics/DSL.kt:9-14 | the block runs on a fresh program and a throw there propagates with the block's calls logged. Otherwise link runs on the shaders the block attached: a link failure propagates LinkFailed with the info log; on a link the calls are the block's, the link, then the detaches in attach order, and a program is returned if and only if every declared name has a location, an unlocated attribute being reported before any uniform. A returned program is fresh and linked, has no shaders attached, holds exactly the declared bindings (the last declaration winning), all resolved |
| `GameObjects.Flatten` | src/main/kotlin/sandbox/physics/GameObject.kt:49-52 | two reals per vertex, the transformed x then y, in vertex order |
| `GameObjects.LineColor` | src/main/kotlin/sandbox/physics/GameObject.kt:18 | red, green and blue are the colour's times 0.8, and alpha is kept |
| `GameObjects.ColorBounds` | src/main/kotlin/sandbox/physics/GameObject.kt:13-18 | with draws in [0, 1) each colour component is in [0.5, 1) with alpha 1, and the outline colour keeps alpha and scales the rest by 0.8 into [0.4, 0.8) |
| `GameObjects.RefreshRun` | src/main/kotlin/sandbox/physics/GameObject.kt:45-57 | updateFixtureVBOs only binds ARRAY_BUFFER and uploads data: it never draws, enables an array or writes a uniform |
| `GameObjects.FixtureRefreshAccepts` | src/main/kotlin/sandbox/physics/GameObject.kt:53-54 | a registered arity-2 buffer always accepts a polygon's flattened vertices: bind, DYNAMIC_DRAW upload, unbind |
| `GameObjects.RefreshMeaning` | src/main/kotlin/sandbox/physics/GameObject.kt:45-57 | with createVBOs's buffers, updateFixtureVBOs passes if and only if every polygon fixture has a buffer, then makes exactly one upload per polygon fixture in order; a failure names the first polygon fixture, in fixture order, without a buffer |
| `GameObjects.FixturesRender` | src/main/kotlin/sandbox/physics/GameObject.kt:69-81 | the fixture loop of renderObject never uploads buffer data: it draws what the last refresh stored |
| `GameObjects.RenderRun` | src/main/kotlin/sandbox/physics/GameObject.kt:66-67 | renderObject's first call is always glUseProgram of the program |
| `GameObjects.PolygonBodyCalls` | src/main/kotlin/sandbox/physics/GameObject.kt:73-79 | for a resolvable vec4 colour uniform, the body issues fill colour, polygon draw, outline colour, line-loop draw, both draws over all the polygon's vertices |
| `GameObjects.FixtureRenderDraws` | src/main/kotlin/sandbox/physics/GameObject.kt:70-80 | a polygon fixture with its buffer, drawn with the demo's arity-2 attribute and vec4 uniform, makes exactly the eight expected calls |
| `GameObjects.RenderMeaning` | src/main/kotlin/sandbox/physics/GameObject.kt:66-82 | with createVBOs's buffers and the demo's bindings, drawing the fixtures passes if and only if every polygon fixture has a buffer, and then draws each polygon fixture in order, filled and then outlined; a failure names the first polygon fixture, in fixture order, without a buffer |
| `GameObjects.GameObject.constructor` | src/main/kotlin/sandbox/physics/GameObject.kt:13-28 | the outline colour derives from the initialiser's three draws, the fill colour from the init block's three later draws, and no buffer exists yet |
| `GameObjects.GameObject.CreateVbos` | src/main/kotlin/sandbox/physics/GameObject.kt:35-43 | a fresh DYNAMIC arity-2 double buffer under every polygon fixture's id and no other new key; the colour buffer is created once and reused; the only calls are its colour upload as STATIC_DRAW |
| `GameObjects.GameObject.UpdateFixtureVbos` | src/main/kotlin/sandbox/physics/GameObject.kt:45-57 | the outcome and calls are RefreshRun's for the object's fixtures, transform and buffers |
| `GameObjects.GameObject.RefreshFixture` | src/main/kotlin/sandbox/physics/GameObject.kt:47-55 | one fixture: a non-polygon does nothing, a polygon without a buffer throws, otherwise its buffer's upload |
| `GameObjects.GameObject.RenderObject` | src/main/kotlin/sandbox/physics/GameObject.kt:66-82 | the outcome and calls are RenderRun's for the object and the bindings' current state, and both resolutions are unchanged |
| `GameObjects.RenderFixtures` | src/main/kotlin/sandbox/physics/GameObject.kt:69-81 | the fixture loop: each fixture's run in order, stopping at the first throw |
| `GameObjects.RenderFixture` | src/main/kotlin/sandbox/physics/GameObject.kt:70-80 | one fixture: a non-polygon does nothing, a polygon without a buffer throws, otherwise withAttribute with the fill-then-outline body |
| `GameWorlds.Cast` | src/main/kotlin/sandbox/physics/GameWorld.kt:24-25 | the cast succeeds if and only if every body is a game object, giving them in order; otherwise ClassCastException |
| `GameWorlds.MvpMapsWorldToClip` | src/main/kotlin/sandbox/physics/GameWorld.kt:30 | the uploaded matrix maps the world point (x, y) to (45x/400, 45y/300) in clip space: 45 pixels per meter on the 800 by 600 view |
| `GameWorlds.WorldRun` | src/main/kotlin/sandbox/physics/GameWorld.kt:29-38 | a frame does anything, or returns normally, only if the MVP uniform is a resolvable 4x4 matrix, and then its first call is the MVP write of the world matrix |
| `GameWorlds.ColorWriteNoMatrix4` | src/main/kotlin/sandbox/graphics/Uniform.kt:72-80 | a write of four values never goes through glUniformMatrix4fv, whatever the uniform's shape |
| `GameWorlds.BodiesNoMatrix4Write` | src/main/kotlin/sandbox/physics/GameWorld.kt:32-37 | the per-body part of a frame never writes a 4x4 matrix uniform, whatever the colour uniform's shape, since the colours have four components |
| `GameWorlds.MvpWrittenOnceFirst` | src/main/kotlin/sandbox/physics/GameWorld.kt:29-38 | if the MVP write fails the frame issues nothing; otherwise the write is the first call and no later call writes a 4x4 matrix; a body that is not a game object stops the frame right after the write |
| `GameWorlds.BodiesMeaning` | src/main/kotlin/sandbox/physics/GameWorld.kt:32-37 | with createVBOs's buffers and the demo's bindings, the bodies pass if and only if every polygon fixture of every body has a buffer, and then each body's uploads come immediately before its own program switch and draws, body by body in world order |
| `GameWorlds.GameWorld.InitializeVbos` | src/main/kotlin/sandbox/physics/GameWorld.kt:23-27 | a body of another class throws before any buffer is created or call made; otherwise every game object is initialised and the calls are each object's colour upload, in world order |
| `GameWorlds.GameWorld.RenderWorld` | src/main/kotlin/sandbox/physics/GameWorld.kt:29-38 | the outcome and calls are WorldRun's: the MVP write, the cast, then per body its update and its render, stopping at the first throw |
| `GameWorlds.CreateAll` | src/main/kotlin/sandbox/physics/GameWorld.kt:26 | createVBOs on every object in order: all initialised, all keep their buffer invariant, and the calls are their colour uploads in order |
| `GameWorlds.RenderBodies` | src/main/kotlin/sandbox/physics/GameWorld.kt:34-37 | the forEach of renderWorld: each body's run in order, stopping at the first throw |
| `GameWorlds.RenderBody` | src/main/kotlin/sandbox/physics/GameWorld.kt:35-36 | one body: updateFixtureVBOs, and renderObject only if that returned normally |

## Left out

- Renderer.kt, physics/DSL.kt and Main.kt are not part of this model: the window, the frame loop, input handling and building the demo world.
- The Gl context is an abstract call log with oracles. GPU execution, rasterisation and GL error state other than "no buffer bound" are left out.
- Object creation (glCreateShader, glCreateProgram, glGenBuffers) and queries (status, info logs, locations) are not logged: the log records only calls that change state or draw.
- Floats and doubles are mathematical reals: no rounding, no `toFloat` narrowing.
- `Math.random()` draws are parameters of the GameObject constructor.
- dyn4j is reduced to what the core reads. A body has a fixture list (each fixture an id and a shape) and a transform, an opaque function on points. Physics stepping and bounds are left out.
- Fixtures are keyed by id in the buffer map. The Kotlin map is keyed by Fixture identity, and fixture ids are unique within a body.
- The bodies of a world are assumed distinct objects (`GameWorlds.GameWorld.Valid`), as dyn4j adds a body to a world once.
- Lazily created names (the program, shader and buffer `ident by lazy`) are generated when the object is built. Their first use falls at construction or before any call that logs them. Thread-safety of `lazy`, and the retry of a lazy initialiser that threw, are left out.
- A VBO's `arity` is a `var` in Kotlin but is never reassigned by the core, so it is a constant here.
- `Program` delegating `Map<String, Attribute>` to its attribute map is modelled only through `Get`.
- The body lambda of `withAttribute` is a script of uniform writes and draws (`DrawStep`), the only shape the core passes. A shader helper's code lambda is given as the text it returns. The resource-path overloads of the shader helpers, and the `InputStream` shader constructor, are left out as file I/O.
- `set(Number)` models Int and Float arguments. For Byte, Long and Double, the Kotlin casts `as Int` / `as Float` would throw ClassCastException. The model treats them as issuing nothing (`OtherNumber`).
- `set(IntBuffer)` on a matrix uniform reads the buffer's backing array. The model takes the backing array to be the remaining values.
- `NANO_TO_BASE` is unused by the core.
- GameWorlds.CreateAll: states that each object ends up initialised (every polygon fixture has a buffer, and a colour buffer exists), not the exact key set or the reuse of an existing colour buffer. GameObjects.GameObject.CreateVbos states those per object.
- GameWorlds.GameWorld.InitializeVbos: states the same per-object initialisation as CreateAll, not the exact buffer maps.
