# ipywebgl: the command-replay engine and its host-side builders, in Dafny

ipywebgl lets a Python notebook drive WebGL 2. The Python host collects commands
(`GLViewer`), encodes numpy arrays for the browser (`array_to_buffer`) and parses
vertex layouts (`GLVertexArrayWidget.bind`). The browser side keeps the commands
and replays them against a WebGL context every time the scene must be redrawn.

This project models that engine and proves what it does. The WebGL context is
an abstract recorder: every `gl.*` call appends a `Call` to a log, and what the
GPU answers to queries (compile and link status, locations, info logs, active
uniforms and attributes, whether a `create*` gives null) is a fixed but
arbitrary `Gpu` value. Properties are stated over that log, such as "this
command uploads nothing" or "every compiled shader is deleted".

Modules, following the source files:

- `ArrayBuffer`: `buffer_to_array` (src/arraybuffer.ts, and the same function in
  the bundle), a view of the payload bytes chosen by the dtype tag.
- `BufferHelper`: `convert_buffer_target` and `convert_usage`
  (src/glbufferhelper.ts), total tables with a logged default.
- `HostArrayBuffer`: `array_to_buffer` (ipywebgl/arraybuffer.py), the dtype
  normalisation (int64 to int32 with wrap-around, float16 to float32) and the
  metadata.
- `HostViewer`: the Python `GLViewer` (ipywebgl/glviewer.py), a class whose
  command list and per-kind uid counters the methods update in place.
- `HostVertexArray` and `HostVertexArrayProperties`: the `bind` parser of
  ipywebgl/glvertexarray.py, written as its nested loops, with the layout
  strings' round trip proved.
- `Matrix` and `Camera`: src/matrix.ts over the reals, and the camera matrices
  `update_camera` builds from a pose. Rotations take their cosine and sine as
  parameters.
- `GL`: the recording context (`Context`) and the `Gpu` oracle.
- `Program`: `GLProgram` of src/glprogram.ts: shader compilation, the
  ready/message transitions, the uniform-location cache and uniform dispatch.
- `VertexArray`: `GLVertexArray.bind_buffer` of src/glvertexarray.ts, the type
  table and the two walks over the attributes (offsets, stride, pointers).
- `Viewer`: the `GLModel` and `GLViewer` of src/glviewer.ts. This covers the
  three uid-checked registries, the token tables, `run_commands` as a function
  `Run` over a state `Machine` together with the class method that replays it,
  and the view's redraw and input state machine.
- `Bundle` and `BundleModel`: the newer `GLModel` of the built bundle
  docs/_static/embed-bundle.js. This covers the batch store (`clear`,
  `only_once`, the rebasing of array indices), the append-only resource
  registry, the binding mirror, the view uniform block, and every case of
  `execute_command`, with `linkProgram` replayed as corrected (see Findings).
  `Bundle` holds the specification functions and lemmas, and
  `BundleModel.GLModel` the class whose methods are proved against them.
- `Json`, `Tables` and `Wrappers`: JavaScript values as the front end reads them,
  ordered lookup tables, and Option/Result.

## Model

| member | source | states |
|---|---|---|
| ArrayBuffer.BufferToArray | src/arraybuffer.ts:1-31 | each of the eight dtype tags gives a view of that element type over the same bytes, whose length is the byte length divided by the element width; any other tag fails with 'Unknown dtype ' + tag |
| ArrayBuffer.TagNameInjective | src/arraybuffer.ts:2-26 | distinct element types have distinct tags, so the switch is unambiguous |
| ArrayBuffer.BufferToArrayOfTag | src/arraybuffer.ts:4-25 | every kind's own tag decodes any whole number of elements to a view of that kind over the bytes, without copying |
| ArrayBuffer.ByteViewsNeverFail | src/arraybuffer.ts:3-8 | the single-byte tags never fail |
| BufferHelper.TargetConversion | src/glbufferhelper.ts:1-14 | each of the eight target tokens gives its enumerant and logs nothing; any other token gives ARRAY_BUFFER and logs an error |
| BufferHelper.UsageConversion | src/glbufferhelper.ts:16-31 | each of the nine usage tokens gives its enumerant and logs nothing; any other token gives STATIC_DRAW and logs an error |
| BufferHelper.TargetsDistinct | src/glbufferhelper.ts:1-11 | the eight targets map to eight distinct enumerants |
| BufferHelper.UsagesDistinct | src/glbufferhelper.ts:17-28 | the nine usages map to nine distinct enumerants |
| HostArrayBuffer.WrapInt32 | ipywebgl/arraybuffer.py:6-7 | the int32 cast lands in [-2^31, 2^31) and differs from its input by a multiple of 2^32 |
| HostArrayBuffer.AsInt32 | ipywebgl/arraybuffer.py:6-7 | int64 to int32 keeps the shape and wraps each element |
| HostArrayBuffer.AsFloat32 | ipywebgl/arraybuffer.py:10-11 | float16 to float32 keeps the shape and every value |
| HostArrayBuffer.AsContiguous | ipywebgl/arraybuffer.py:14-15 | the same elements in C-contiguous order |
| HostArrayBuffer.ArrayToBuffer | ipywebgl/arraybuffer.py:1-17 | the metadata carries the input shape and the name of the converted dtype; int64 becomes int32 and float16 becomes float32, other dtypes pass unchanged; a well-formed array gives as many payload elements as the product of its shape |
| HostArrayBuffer.PayloadHasBrowserType | ipywebgl/arraybuffer.py:6-11 | the payload is never int64 or float16 |
| HostArrayBuffer.Int64NarrowingKeepsSmallValues | ipywebgl/arraybuffer.py:6-7 | an int64 element reaches the browser wrapped to 32 bits, unchanged when it fits |
| HostArrayBuffer.WrapInt32Idempotent | ipywebgl/arraybuffer.py:6-7 | narrowing an already narrowed value changes nothing |
| HostViewer.CapsFields | ipywebgl/glviewer.py:217-243 | the ten capability flags are stored under their dict keys |
| HostViewer.CapsFieldsRecordRest | ipywebgl/glviewer.py:266-292 | the remaining five flags are stored too |
| HostViewer.CapsCommand | ipywebgl/glviewer.py:217-292 | the `enable`/`disable` dict names its command and holds all ten flags |
| HostViewer.UidOrNone | ipywebgl/glviewer.py:127-130 | None is recorded as -1, a resource as its uid |
| HostViewer.ArrayJson | ipywebgl/glviewer.py:314-331 | an encoded array becomes the two-element list of its metadata and its payload |
| HostViewer.ClearCommand | ipywebgl/glviewer.py:170-178 | the color argument is stored under 'depth' and the depth argument under 'color' |
| HostViewer.BufferDataCommand | ipywebgl/glviewer.py:145-155 | the `bufferData` dict is keyed by 'type' and has no 'cmd' |
| HostViewer.GLViewer.constructor | ipywebgl/glviewer.py:53-58 | the three uid counters start at -1 and no command is collected |
| HostViewer.GLViewer.Render | ipywebgl/glviewer.py:61-67 | the collected list is sent and then the list is empty |
| HostViewer.GLViewer.ClearCommands | ipywebgl/glviewer.py:71-74 | the list is emptied without sending anything |
| HostViewer.GLViewer.CreateBuffer | ipywebgl/glviewer.py:77-90 | the buffer counter goes up by one and is the new uid; the other counters and the commands stay |
| HostViewer.GLViewer.CreateProgram | ipywebgl/glviewer.py:93-103 | the program counter goes up by one and is the new uid |
| HostViewer.GLViewer.CreateVertexArray | ipywebgl/glviewer.py:106-116 | the vertex array counter goes up by one and is the new uid |
| HostViewer.GLViewer.BindBuffer | ipywebgl/glviewer.py:120-130 | exactly one dict is appended, with -1 for None |
| HostViewer.GLViewer.BindVertexArray | ipywebgl/glviewer.py:133-142 | exactly one dict is appended, with -1 for None |
| HostViewer.GLViewer.BufferData | ipywebgl/glviewer.py:145-155 | one `bufferData` dict is appended; without an array the call raises and appends nothing |
| HostViewer.GLViewer.ClearColor | ipywebgl/glviewer.py:158-167 | exactly one `clearColor` dict is appended |
| HostViewer.GLViewer.Clear | ipywebgl/glviewer.py:170-178 | exactly one `clear` dict is appended, with the swapped keys |
| HostViewer.GLViewer.CullFace | ipywebgl/glviewer.py:180-188 | exactly one `cullFace` dict is appended |
| HostViewer.GLViewer.DepthFunc | ipywebgl/glviewer.py:190-198 | exactly one `depthFunc` dict is appended |
| HostViewer.GLViewer.DepthMask | ipywebgl/glviewer.py:200-206 | exactly one `depthMask` dict is appended |
| HostViewer.GLViewer.DepthRange | ipywebgl/glviewer.py:208-215 | exactly one `depthRange` dict is appended |
| HostViewer.GLViewer.Disable | ipywebgl/glviewer.py:217-243 | exactly one dict with all ten flags is appended |
| HostViewer.GLViewer.Enable | ipywebgl/glviewer.py:266-292 | exactly one dict with all ten flags is appended |
| HostViewer.GLViewer.DrawArrays | ipywebgl/glviewer.py:245-253 | exactly one `drawArrays` dict is appended, with the mode under 'type' |
| HostViewer.GLViewer.DrawElements | ipywebgl/glviewer.py:255-264 | exactly one `drawElements` dict is appended |
| HostViewer.GLViewer.FrontFace | ipywebgl/glviewer.py:294-300 | exactly one `frontFace` dict is appended |
| HostViewer.GLViewer.UseProgram | ipywebgl/glviewer.py:302-311 | exactly one dict is appended, with -1 for None |
| HostViewer.GLViewer.SetUniform | ipywebgl/glviewer.py:314-321 | exactly one `uniform` dict with the encoded array is appended |
| HostViewer.GLViewer.SetUniformMatrix | ipywebgl/glviewer.py:324-331 | exactly one `uniformMatrix` dict with the encoded array is appended |
| HostViewer.UidsCountFromZero | ipywebgl/glviewer.py:77-116 | creating any sequence of buffers, programs and vertex arrays on a fresh viewer, each widget gets as uid the number of widgets of its own kind created before it, whatever is created of the other kinds in between |
| HostVertexArray.Word | ipywebgl/glvertexarray.py:35 | the word a string starts with is its longest prefix without whitespace |
| HostVertexArray.Words | ipywebgl/glvertexarray.py:35 | `split()` gives the maximal non-empty runs of non-whitespace, in order |
| HostVertexArray.RemoveAll | ipywebgl/glvertexarray.py:38 | `replace(T, '')` never lengthens the string and removes every occurrence |
| HostVertexArray.NatString | ipywebgl/glvertexarray.py:38 | `str(n)` is a non-empty run of digits |
| HostVertexArray.AppendTokenAttributes | ipywebgl/glvertexarray.py:36-38 | the innermost loop appends, in type-name order, one attribute per type name the token contains |
| HostVertexArray.LayoutLoop | ipywebgl/glvertexarray.py:35-38 | the middle loop gives the attributes of every token, each named by the name at the token's position |
| HostVertexArray.Numeral | ipywebgl/glvertexarray.py:38 | the digits `int()` reads from a count: only runs of ASCII digits, single underscores between them being dropped; every plain digit run is read as itself |
| HostVertexArray.UnderscoreSeparates | ipywebgl/glvertexarray.py:38 | a single underscore between two digit runs is dropped from the numeral `int()` reads |
| HostVertexArray.UnderscoreIsIgnored | ipywebgl/glvertexarray.py:38 | `int(a + "_" + b) == int(a + b)` for digit runs a and b |
| HostVertexArray.Bind | ipywebgl/glvertexarray.py:31-41 | the single `bind` message holds one entry per definition, in order; or the IndexError of a missing attribute name, or the ValueError of a count `int()` rejects, raised on the way with nothing sent |
| HostVertexArrayProperties.WordsOfJoin | ipywebgl/glvertexarray.py:35 | splitting words joined by spaces gives them back |
| HostVertexArrayProperties.ParseNatString | ipywebgl/glvertexarray.py:38 | `int(str(n)) == n` |
| HostVertexArrayProperties.RemovePastDigits | ipywebgl/glvertexarray.py:38 | removing the type name from `<digits><type>` leaves the digits |
| HostVertexArrayProperties.TypeNamesContain | ipywebgl/glvertexarray.py:36 | no type name occurs inside another |
| HostVertexArrayProperties.TypeNameShape | ipywebgl/glvertexarray.py:36 | every type name starts with a letter and holds no whitespace |
| HostVertexArrayProperties.WellFormedToken | ipywebgl/glvertexarray.py:36-38 | a token `<count><type>` yields exactly one attribute of that type and count, named by the name at its position, or raises IndexError when the names run out |
| HostVertexArrayProperties.TokenWithoutTypeIsSkipped | ipywebgl/glvertexarray.py:36-38 | a token containing no type name yields nothing and raises nothing |
| HostVertexArrayProperties.LayoutOfWellFormedTokens | ipywebgl/glvertexarray.py:35-38 | a layout like "3f32 3f32" with enough names yields one attribute per token, in order, with its type, count and name |
| HostVertexArrayProperties.TokensAreWords | ipywebgl/glvertexarray.py:35 | the tokens of a layout survive being joined and split again |
| HostVertexArrayProperties.TooFewNamesRaise | ipywebgl/glvertexarray.py:38 | a layout with more tokens than names raises IndexError and sends nothing |
| Matrix.Frustrum | src/matrix.ts:9-23 | entry 14 is always -1 and entry 15 is 0; left == -right gives A = 0 and bottom == -top gives B = 0 |
| Matrix.ProjectionMatrix | src/matrix.ts:1-7 | the frustum is centred on the view axis (A = B = 0) and entry 14 is -1; the tangent of the half angle is a parameter |
| Matrix.GetTranslation | src/matrix.ts:25-29 | the last column, rows 0 to 2 |
| Matrix.GetColumnI | src/matrix.ts:31-35 | column 0, rows 0 to 2 |
| Matrix.GetColumnJ | src/matrix.ts:37-41 | column 1, rows 0 to 2 |
| Matrix.GetColumnK | src/matrix.ts:43-47 | column 2, rows 0 to 2 |
| Matrix.Vec3Add | src/matrix.ts:49-55 | componentwise sum |
| Matrix.Vec3Scale | src/matrix.ts:57-63 | componentwise product with the scale |
| Matrix.Translation | src/matrix.ts:65-72 | `m4getTranslation` of it gives back (tx, ty, tz) |
| Matrix.Scale | src/matrix.ts:110-117 | it is its own transpose and has no translation |
| Matrix.DotIsRowByColumn | src/matrix.ts:119-138 | entry (i, j) of `m4dot(b, a)` is row i of b times column j of a |
| Matrix.IdentityIsUnit | src/matrix.ts:65-72 | m4Scale(1, 1, 1) and m4Translation(0, 0, 0) are the identity, a two-sided unit of `m4dot` |
| Matrix.TranslationsCompose | src/matrix.ts:65-72 | the product of two translations is the translation by the sum of their offsets |
| Matrix.TransposeTwice | docs/_static/embed-bundle.js:1 | `m4Transpose` is an involution |
| Matrix.Vec3ScaleByOne | src/matrix.ts:57-63 | scaling by 1 is the identity |
| Matrix.RotationTransposeReverses | src/matrix.ts:74-85 | the transpose of a rotation is the rotation with the sine negated |
| Matrix.XRotationIsOrthogonalRight | src/matrix.ts:74-85 | with c² + s² = 1, the x rotation times its transpose is the identity |
| Matrix.XRotationIsOrthogonalLeft | src/matrix.ts:74-85 | with c² + s² = 1, the transpose times the x rotation is the identity |
| Matrix.YRotationIsOrthogonalRight | src/matrix.ts:86-97 | the same for the y rotation, on the right |
| Matrix.YRotationIsOrthogonalLeft | src/matrix.ts:86-97 | the same for the y rotation, on the left |
| Matrix.ZRotationIsOrthogonalRight | src/matrix.ts:98-109 | the same for the z rotation, on the right |
| Matrix.ZRotationIsOrthogonalLeft | src/matrix.ts:98-109 | the same for the z rotation, on the left |
| Matrix.DotAssociative | src/matrix.ts:119-138 | `m4dot` is associative |
| Matrix.InverseIsLeftInverse | src/matrix.ts:140-207 | `m4dot(m4inverse(m), m)` is the identity whenever the determinant term is not zero |
| Camera.CameraEntries | src/glviewer.ts:76-84 | the camera matrix of a pose: the yaw-then-pitch rotated axes in the first three columns and the position in the last |
| Camera.CameraIsInvertible | src/glviewer.ts:76-84 | the camera matrix of a pose has determinant 1, so `m4inverse` never divides by zero on it |
| Camera.TranslationIsInvertible | src/glviewer.ts:58-59 | the initial translation has determinant 1 as well |
| Camera.ViewMatrixIsInverse | src/glviewer.ts:83 | the view matrix is the inverse of the camera matrix |
| Camera.ViewUndoesCamera | src/glviewer.ts:83 | the view matrix times the camera matrix is the identity |
| Camera.CameraAxes | src/glviewer.ts:354-355 | the camera sits at its position; the forward and side axes `redraw` reads are the rotated z and x axes, and the side axis is horizontal |
| Camera.PoseOf | src/glviewer.ts:76-79 | the attributes give a pose whose angle pairs lie on the unit circle |
| Camera.DefaultAttributesPose | src/glviewer.ts:58 | the default attributes describe the default pose |
| Camera.DefaultCameraIsTranslation | src/glviewer.ts:58 | at the default pose the camera matrix is the translation `initialize` sets |
| Camera.ViewProjectionUndoesCamera | src/glviewer.ts:137-138 | the view-projection composed with the camera matrix gives back the projection |
| Camera.UploadedRestores | src/glviewer.ts:139 | transposing the upload for a row-major shader gives the matrix back; others receive it unchanged |
| Program.ShaderSpec | src/glprogram.ts:54-75 | `createShader` creates, sources and compiles a shader; on success its message is 'ok' and it is kept, on failure the message is its info log and it is dropped, and a null shader is only reported on the console |
| Program.Outcome | src/glprogram.ts:94-110 | the state after `createProgram` has an empty cache and is ready exactly when it keeps a program |
| Program.CompileSpec | src/glprogram.ts:77-115 | the state and calls of `createProgram` |
| Program.ShaderIsHonest | src/glprogram.ts:54-75 | `createShader` deletes and links nothing, and the objects it compiled successfully are exactly the shader it keeps |
| Program.ShaderIsReported | src/glprogram.ts:62-72 | on a live context the shader is compiled and its verdict reported |
| Program.StagesBehave | src/glprogram.ts:86-93 | the program object is created unless the context is lost; without it no shader is attempted, with it both are |
| Program.CompiledShadersAreDeleted | src/glprogram.ts:111-112 | the shaders deleted are exactly those that compiled, in order, whatever became of the link |
| Program.BuildLinks | src/glprogram.ts:94-99 | the program is linked exactly when both shaders compiled |
| Program.ReadyExactlyWhenLinked | src/glprogram.ts:94-110 | `ready` holds exactly when a program linked successfully, which is then kept with message 'ok'; a failed link reports the program's info log |
| Program.OutcomeReportsShaders | src/glprogram.ts:86-93 | the messages report the verdicts of the shaders compiled, or the missing program |
| Program.ShadersAreReported | src/glprogram.ts:54-93 | either two shaders are compiled, vertex first, each reported in its own message field, or none is and the console says why |
| Program.UniformKindOf | src/glprogram.ts:137-181 | int32, uint32 and float32 pick the iv, uiv and fv methods, nothing else picks any |
| Program.UniformFnMatchesArray | src/glprogram.ts:132-183 | `setUniform` uploads exactly the vectors of 1 to 4 components of those dtypes, through the method named by width and suffix; distinct pairs use distinct methods |
| Program.MatrixFnMatchesArray | src/glprogram.ts:185-229 | `setUniformMatrix` uploads exactly the shapes whose last two dimensions are each 2, 3 or 4, through the method named by them in order, untransposed |
| Program.Dims | src/glprogram.ts:136-226 | one dimension per element of the shape; a non-zero dimension is the integer its element loosely equals, and an element that loosely equals an integer has that integer as its dimension, so `true`, "4" and `[4]` pass the size tests as 1, 4 and 4 |
| Program.LooseShapesUpload | src/glprogram.ts:136-226 | shapes `[true]`, `["4", "4"]`, `[[3]]` and the text "2" select `uniform1fv`, `uniformMatrix4fv`, `uniform3iv` and `uniform2uiv` |
| Program.LookupsOnlyGrowCache | src/glprogram.ts:117-130 | without a program object any lookup throws; with one, every lookup appends one entry holding the context's answer, repeated names included, and changes nothing else |
| Program.GLProgram.constructor | src/glprogram.ts:38-43 | a program widget of the given uid, not compiled |
| Program.GLProgram.CreateShader | src/glprogram.ts:54-75 | the method makes the calls and sets the message `ShaderSpec` describes |
| Program.GLProgram.CreateProgram | src/glprogram.ts:77-115 | the method leaves the state and calls `CompileSpec` describes |
| Program.GLProgram.Restart | src/glprogram.ts:78-86 | not ready, the old program deleted, the program and cache reset, a new program object created |
| Program.GLProgram.CompileShaders | src/glprogram.ts:92-93 | the two `createShader` steps, vertex first |
| Program.GLProgram.LinkAndRelease | src/glprogram.ts:94-112 | link when both shaders compiled, then delete each kept shader |
| Program.GLProgram.Link | src/glprogram.ts:97-109 | attach both shaders and link; ready with message 'ok' on success, the info log otherwise |
| Program.GLProgram.HandleCustomMessage | src/glprogram.ts:45-52 | a `compile` message rebuilds the program |
| Program.GLProgram.RequestUniformLocation | src/glprogram.ts:117-130 | throws, changing nothing, exactly when the program object is null (never linked); otherwise the location is the context's answer and the cache grows by that one entry |
| Program.GLProgram.SetUniform | src/glprogram.ts:132-183 | a null program object throws before any call; otherwise at most one upload, exactly when the location is found and the dtype and width are supported; a null shape throws once a location is found |
| Program.GLProgram.SetUniformMatrix | src/glprogram.ts:185-229 | a null program object throws before any call; otherwise at most one untransposed upload, exactly when the location is found and the shape is supported |
| VertexArray.ComponentOf | src/glvertexarray.ts:79-111 | the eight type names and nothing else have a component: i8/u8 of size 1, i16/u16/f16 of size 2, i32/u32/f32 of size 4, each with its enumerant |
| VertexArray.ComponentTypesDistinct | src/glvertexarray.ts:79-111 | distinct type names have distinct enumerants |
| VertexArray.Attributes | src/glvertexarray.ts:74-124 | the first walk pushes at most one attribute per entry |
| VertexArray.Records | src/glvertexarray.ts:70-141 | one record per definition, in definition order |
| VertexArray.OneAttributePerAcceptedEntry | src/glvertexarray.ts:112-122 | one attribute per entry of a known type |
| VertexArray.StrideIsFootprint | src/glvertexarray.ts:121-122 | the stride is the bytes of all kept entries together |
| VertexArray.OffsetsArePrefixSums | src/glvertexarray.ts:74-124 | exactly the entries of a known type are kept, in order; each one's offset is the sum of component size times count over those kept before it, and the stride is the full sum |
| VertexArray.UnknownTypeIsSkipped | src/glvertexarray.ts:112-122 | an entry of unknown type is skipped and the ones after it are still processed |
| VertexArray.UnbindsPerUnknownType | src/glvertexarray.ts:117-118 | each entry of unknown type costs one unbinding pair, and nothing else does |
| VertexArray.Pointed | src/glvertexarray.ts:126-138 | the attributes the program knows, in order |
| VertexArray.PointersFollowLocations | src/glvertexarray.ts:126-138 | the second walk points exactly the attributes the program knows, in order, each with its count, type, offset and the stride |
| VertexArray.EnablesFollowLocations | src/glvertexarray.ts:126-138 | the second walk enables exactly the locations of the attributes the program knows, in order |
| VertexArray.GLVertexArray.constructor | src/glvertexarray.ts:38-53 | the vertex array object is created, or its failure reported |
| VertexArray.GLVertexArray.HandleCustomMessage | src/glvertexarray.ts:55-61 | a `bind` message binds the buffers, and reports whether that completed or threw |
| VertexArray.GLVertexArray.BindBuffer | src/glvertexarray.ts:63-149 | completes exactly when no definition names an unregistered buffer and none needs a location without a program object; then one record per definition replaces the previous ones, the message names the program and the vertex array and ARRAY_BUFFER end unbound; otherwise the calls, console and message stop at the first definition that throws, and the attributes are unchanged |
| VertexArray.GLVertexArray.BindDefinitions | src/glvertexarray.ts:70-141 | the loop over the definitions gives `Records` of them when none throws, and otherwise stops inside the first one that does (`FirstThrow`) |
| VertexArray.GLVertexArray.BindNext | src/glvertexarray.ts:70-141 | one more turn of that loop adds the next record, or ends in that definition's throw |
| VertexArray.GLVertexArray.BindDefinition | src/glvertexarray.ts:71-140 | one definition: its buffer bound, its two walks, its record; an unregistered buffer throws before any call, and attributes to locate without a program object throw after the first walk |
| VertexArray.GLVertexArray.DescribeAttributes | src/glvertexarray.ts:74-124 | the first walk computes `Attributes` and `Stride` |
| VertexArray.GLVertexArray.PointAttributes | src/glvertexarray.ts:126-138 | with a program object, the second walk makes the calls `PointerCalls` describes and sets the message of the last unknown attribute |
| Viewer.DrawModeOf | src/glviewer.ts:86-105 | each of the seven tokens gives its mode, anything else TRIANGLES |
| Viewer.DepthFuncOf | src/glviewer.ts:121-134 | each of the eight tokens gives its function, anything else LESS |
| Viewer.CullFaceModeOf | src/glviewer.ts:189-197 | FRONT and FRONT_AND_BACK from exactly their tokens, BACK from anything else |
| Viewer.FrontFaceModeOf | src/glviewer.ts:217-219 | CW exactly for 'cw', CCW otherwise |
| Viewer.IndexTypeOf | src/glviewer.ts:249-258 | UNSIGNED_SHORT exactly for 'uint16', UNSIGNED_BYTE otherwise |
| Viewer.CapsOfFlags | src/glviewer.ts:107-119 | `get_caps` holds DEPTH exactly when `depth_test` is set, and each other capability exactly when its flag is set |
| Viewer.CapsHoldOnlyTable | src/glviewer.ts:107-119 | it holds nothing else: never CULL_FACE, never DEPTH_TEST |
| Viewer.CapsOfNoFlags | src/glviewer.ts:107-119 | no flag gives 0 |
| Viewer.CapsIgnoreCullFace | src/glviewer.ts:107-119 | `cull_face` is never read |
| Viewer.SameNineFlags | src/glviewer.ts:107-119 | commands agreeing on the nine flags enable the same capabilities |
| Viewer.HostCapsReplayed | src/glviewer.ts:198-216 | a host `enable`/`disable` dict turns into DEPTH exactly when `depth_test` was true and each other capability exactly when its flag was |
| Viewer.HostCullFaceIgnored | src/glviewer.ts:198-216 | the host's `cull_face` flag has no effect |
| Viewer.ClearBitsOf | src/glviewer.ts:179-188 | the mask holds each of the three bits exactly when its flag is truthy, and nothing else |
| Viewer.HostClearSwapsBuffers | src/glviewer.ts:179-188 | replaying the host's `clear` clears the depth buffer exactly when the color argument was set, and the reverse |
| Viewer.TargetOf | src/glviewer.ts:146 | a target field is converted as `convert_buffer_target` does; anything else is logged as JavaScript writes it (a number as its digits) and read as ARRAY_BUFFER |
| Viewer.CommandOf | src/glviewer.ts:142-253 | every case label selects its own kind, and the seventeen kinds are told apart |
| Viewer.FixedCall | src/glviewer.ts:176-253 | the fixed-function and draw commands make one call built from their own fields |
| Viewer.UseProgramStep | src/glviewer.ts:220-232 | the named program becomes the bound one and is used, a negative or missing id binding null; it then receives the view-projection, and the step throws exactly when the bound program was never linked (its object is null) |
| Viewer.LengthArgument | src/arraybuffer.ts:3-25 | a typed-array constructor reads undefined and null as length 0 and a number as its truncation toward zero, negative exactly from -1 down |
| Viewer.TypedArray | src/arraybuffer.ts:1-30 | a binary buffer gives `BufferToArray`; null, undefined, a boolean or a number gives an array of that many zeros of the dtype's kind, an unknown dtype its error and a negative length a RangeError |
| Viewer.UniformArguments | src/glviewer.ts:233-242 | the arguments exist exactly when the command has a buffer object with a string dtype whose `buffer_to_array` succeeds (`TypedArray`); they carry that dtype, the shape, the typed array, and the command's `name` as JavaScript writes it |
| Viewer.Dispatch | src/glviewer.ts:142-253 | a known command keeps the registries and only extends the calls and console |
| Viewer.Step | src/glviewer.ts:141-142 | reading `command.cmd` throws on null and undefined; an unknown `cmd` is skipped, and so is every command without a context |
| Viewer.Run | src/glviewer.ts:141-260 | the commands run in order and the first throw ends the batch |
| Viewer.RunExtends | src/glviewer.ts:141 | a batch that has not thrown goes on with the next command |
| Viewer.RunPrefixExtends | src/glviewer.ts:141 | the first i + 1 commands run as the first i followed by command i, unless those threw |
| Viewer.RunStopsAtThrow | src/glviewer.ts:141 | after a throw the remaining commands change nothing |
| Viewer.RunSplits | src/glviewer.ts:141 | running a + b runs b from where a left off when a did not throw |
| Viewer.FixedBatch | src/glviewer.ts:176-253 | a batch of fixed-function and draw commands never throws and makes one call per command, in order, changing nothing else |
| Viewer.UseProgramUploadsViewProjection | src/glviewer.ts:220-232 | binding a registered program uses its object; a never-linked one then throws, and a linked one uploads the view-projection untransposed as a 4x4 matrix to `ViewProjection` |
| Viewer.BufferDataUploadsNothing | src/glviewer.ts:168-175 | `bufferData` binds the buffer and gives it undefined data declared DYNAMIC_DRAW, whatever the command says |
| Viewer.HostBufferDataIgnored | src/glviewer.ts:142 | the host's `buffer_data` dict, keyed by 'type', is skipped |
| Viewer.UniformsNeedABoundProgram | src/glviewer.ts:233-242 | without a bound program the uniform commands neither throw nor call |
| Viewer.NoContextOnlyThrows | src/glviewer.ts:141-142 | without a context a batch changes nothing and throws exactly when one of its commands is null or undefined |
| Viewer.Replays | src/glviewer.ts:54 | the commands replayed several times in a row, a throw ending the replays |
| Viewer.GLBuffer.UpdateBuffer | src/glbuffer.ts:61-64 | ARRAY_BUFFER is bound to the buffer and given the data, DYNAMIC_DRAW exactly when `is_dynamic` is truthy |
| Viewer.GLModel.constructor | src/glviewer.ts:43-59 | the context or the console error, empty registries and commands, the default attributes, the canvas sized, and the camera the translation to the default position with its inverse |
| Viewer.GLModel.ResizeCanvas | src/glviewer.ts:62-68 | the viewport call when there is a context, and the projection of the new aspect ratio |
| Viewer.GLModel.RegisterProgram | src/glviewer.ts:263-268 | the program is appended exactly when its uid is the list's length; otherwise nothing changes |
| Viewer.GLModel.RegisterBuffer | src/glviewer.ts:274-279 | the same for buffers, in their own list |
| Viewer.GLModel.RegisterVertexArray | src/glviewer.ts:285-290 | the same for vertex arrays, in their own list |
| Viewer.GLModel.HandleCustomMessages | src/glviewer.ts:71-74 | the message replaces the command list, which is replayed as `Run` describes |
| Viewer.GLModel.SetCamera | src/glviewer.ts:54 | the attributes take the new values, and a change replays the commands from the new camera |
| Viewer.GLModel.Frame | src/glviewer.ts:347-377 | the held keys move the camera by one step, a changed position replays the commands, and the commands are drawn unless that replay threw |
| Viewer.GLModel.MoveCamera | src/glviewer.ts:351-370 | the new position is the old one moved along the forward and side axes by the held keys; a change replays the commands |
| Viewer.GLModel.Turn | src/glviewer.ts:390-391 | the yaw is set and, when it changed, the commands replay from the new pose; unless that replay threw, the pitch is set and replays the same way; a throw in the first replay leaves the pitch as it was |
| Viewer.GLModel.RunCommands | src/glviewer.ts:136-260 | the camera is updated and the commands replayed as `Run` describes |
| Viewer.GLModel.Replay | src/glviewer.ts:141-259 | the `forEach` loop computes `Run` of the commands |
| Viewer.GLModel.ReplayNext | src/glviewer.ts:141-259 | one more turn of the loop extends `Run` by the next command |
| Viewer.GLModel.UpdateCamera | src/glviewer.ts:76-84 | the camera matrix of the pose, its inverse and the view-projection |
| Viewer.GLModel.RunCommand | src/glviewer.ts:142-258 | one command changes the state as `Step` describes |
| Viewer.GLModel.DispatchCommand | src/glviewer.ts:142-258 | a command of a known kind changes the state as `Dispatch` describes |
| Viewer.GLModel.BindBufferCommand | src/glviewer.ts:143-155 | the state `BindBufferStep` describes |
| Viewer.GLModel.BindVertexArrayCommand | src/glviewer.ts:156-167 | a negative id or a missing vertex array binds null; otherwise the registered one is bound |
| Viewer.GLModel.BufferDataCommand | src/glviewer.ts:168-175 | the state `BufferDataStep` describes |
| Viewer.GLModel.UseProgramCommand | src/glviewer.ts:220-232 | the state and throw `UseProgramStep` describes |
| Viewer.GLModel.UniformCommand | src/glviewer.ts:233-242 | the state the uniform step describes |
| Viewer.MovementAddsUp | src/glviewer.ts:357-368 | each coordinate moves by `speed` times the forward axis weighted by the back/forward keys plus the side axis weighted by the right/left keys |
| Viewer.OppositeKeysCancel | src/glviewer.ts:357-368 | opposite keys held together leave the camera where it was |
| Viewer.SideStepsKeepHeight | src/glviewer.ts:363-368 | side steps keep the camera's height |
| Viewer.KeyIndex | src/glviewer.ts:418-433 | the first of the four move keys the key equals |
| Viewer.Press | src/glviewer.ts:417-434 | only the first matching direction is set |
| Viewer.Release | src/glviewer.ts:443-454 | only the first matching direction is cleared |
| Viewer.ReleaseUndoesPress | src/glviewer.ts:411-455 | pressing a move key starts a move, and releasing it restores the held keys |
| Viewer.GLViewer.constructor | src/glviewer.ts:314-339 | nothing held, no frame pending, the canvas resized |
| Viewer.GLViewer.RequestRedraw | src/glviewer.ts:379-384 | a frame is requested only when none is pending, and one is then pending |
| Viewer.GLViewer.Redraw | src/glviewer.ts:347-377 | the pending flag clears; while keys are held the camera moves and a next frame is requested; the commands are replayed |
| Viewer.GLViewer.OnMouseMove | src/glviewer.ts:386-395 | with the button up nothing changes; with it down the camera turns by the movement and a frame is requested |
| Viewer.GLViewer.OnMouseDown | src/glviewer.ts:397-400 | the button is down |
| Viewer.GLViewer.OnMouseUp | src/glviewer.ts:402-404 | the button is up |
| Viewer.GLViewer.OnMouseOut | src/glviewer.ts:406-409 | the button and every key count as released |
| Viewer.GLViewer.OnKeyDown | src/glviewer.ts:411-435 | repeats are ignored; a first press holds its key and requests a frame |
| Viewer.GLViewer.OnKeyUp | src/glviewer.ts:437-455 | the key's direction is released |
| Bundle.ViewAt | docs/_static/embed-bundle.js:1 | `r[j]` on the decoded arrays is an array exactly at an integral index in range |
| Bundle.Dim | docs/_static/embed-bundle.js:1 | a field that loosely equals 1, 2, 3 or 4 (`true` as 1, "2" and `[2]` as 2) selects that size, and a selected size is one the field loosely equals |
| Bundle.FindIndex | docs/_static/embed-bundle.js:1 | the first position satisfying the predicate, if any |
| Bundle.BoundAt | docs/_static/embed-bundle.js:1 | `bound_buffers[target]` is a registered resource or none |
| Bundle.CreateStep | docs/_static/embed-bundle.js:1 | the object is created and stored with its `_info` in the resource the command names, which throws when there is none |
| Bundle.CompileStep | docs/_static/embed-bundle.js:1 | a missing shader resource or a null shader object throws and changes nothing; otherwise one `compileShader` call, and the shader's message becomes "compiled" or its info log, nothing else changing |
| Bundle.LinkAttributes | docs/_static/embed-bundle.js:1 | each active attribute listed with its location |
| Bundle.LinkStep | docs/_static/embed-bundle.js:1 | a missing program resource or a null object throws and changes nothing; otherwise link and validate, then a linked program gets its view block bound and its uniforms and attributes collected, and a failed one gets its program log as message with nothing else changed |
| Bundle.LinkedState | docs/_static/embed-bundle.js:1 | a linked program gets its view block bound, message "linked", its uniforms grouped by block and its attributes listed anew; no other resource changes |
| Bundle.BindStep | docs/_static/embed-bundle.js:1 | a field >= 0 binds the resource there and throws when there is none; a negative one binds null; the one call is `useProgram(o)`, `bindVertexArray(o)` or `bindBuffer(gl[target], o)` for that case, and only the matching binding changes |
| Bundle.Upload | docs/_static/embed-bundle.js:1 | a null or undefined metadata or shape throws; an upload is due for a matrix whose last two shape entries are sizes 2 to 4, or a vector whose last entry is 1 to 4 and whose dtype is int32, uint32 or float32; a due upload throws when no array is at the metadata's index and is otherwise the one `uniformMatrix{C}x{R}fv` (untransposed) or `uniform{N}{i,ui,f}v` call those entries and that dtype name, at the uniform's location with that array; anything else uploads nothing |
| Bundle.UniformStep | docs/_static/embed-bundle.js:1 | skipped without a bound program or when its uniforms list no such name; throws when the bound program's info has no uniform list; otherwise the first uniform of that name gets exactly the upload `Upload` describes, or the step throws with it |
| Bundle.BufferDataStep | docs/_static/embed-bundle.js:1 | the one call is `bufferData(gl[target], data, gl[usage])`, the data being the metadata's array or null; it throws only when `buffer_metadata` is present but null or undefined (an index naming no array passes undefined, which the nullable data parameter accepts); with `update_info` the buffer bound at the target gets a new `_info` holding only its type, size ("Undefined" without data) and target, and no other resource changes |
| Bundle.CreateUniformBufferStep | docs/_static/embed-bundle.js:1 | a buffer is created first; it throws when the program, its block list or the target resource is missing; when the program has the named block the buffer is sized for it, records it and UNIFORM_BUFFER is left unbound |
| Bundle.SubDataOffset | docs/_static/embed-bundle.js:1 | `bufferSubData` uses its own offset; `bufferSubDataStr` uses the offset of the named member of the bound buffer's block, 0 when there is none |
| Bundle.BufferSubDataStep | docs/_static/embed-bundle.js:1 | throws, changing nothing, when there is no offset, when the metadata names no array, or without metadata when `src_offset` is not a buffer; otherwise exactly one `bufferSubData` call at offset `SubDataOffset` with that array (or `src_offset`) as data |
| Bundle.RecordPointer | docs/_static/embed-bundle.js:1 | with a vertex array and an ARRAY_BUFFER bound, the pointer is recorded in that vertex array only |
| Bundle.AttribCalls | docs/_static/embed-bundle.js:1 | at a location >= 0: `enable`/`disableVertexAttribArray(at)`; `vertexAttrib[I]Pointer` with the command's size, type, (normalized,) stride and offset, recorded in the bound vertex array (`RecordPointer`); the two value-setting kinds as `AttribValueCalls` gives |
| Bundle.AttribValueCalls | docs/_static/embed-bundle.js:1 | `vertexAttrib{1..4}fv` sized by the size the first shape entry loosely equals and `vertexAttribI4[u]iv` chosen by the dtype, with the metadata's array, or no call for another size or dtype; each throws, changing nothing, on a null or undefined metadata or shape, or when a call is due with no array |
| Bundle.VertexAttribStep | docs/_static/embed-bundle.js:1 | an unresolvable index throws; a negative location is reported on the console, naming the index as JavaScript writes it, and makes no call; a location >= 0 makes the calls `AttribCalls` states, after the resolution's console lines |
| Bundle.AttribResolved | docs/_static/embed-bundle.js:1 | after the resolution's console lines, a negative location adds "attribute <index> location not found" and changes nothing else; a location >= 0 gives exactly `AttribCalls` |
| Bundle.Dispatch | docs/_static/embed-bundle.js:1 | every case keeps the registry's length and only extends the calls and console |
| Bundle.ContextStep | docs/_static/embed-bundle.js:1 | the cases that only make calls change nothing but the calls, and `shaderSource`, `attachShader`, `bindAttribLocation` and `uniformBlockBinding` throw on a null object; a fixed case makes its one call |
| Bundle.DispatchGroups | docs/_static/embed-bundle.js:1 | the six groups of cases the switch tells apart |
| Bundle.Step | docs/_static/embed-bundle.js:1 | `execute_command` throws on a null or undefined command and skips an unknown `cmd` |
| Bundle.Run | docs/_static/embed-bundle.js:1 | the commands run in order and the first throw ends the batch |
| Bundle.RunGrows | docs/_static/embed-bundle.js:1 | a batch keeps the registry's length and only extends the calls and console, whether or not it throws |
| Bundle.RunExtends | docs/_static/embed-bundle.js:1 | a batch that has not thrown goes on with the next command |
| Bundle.RunPrefixExtends | docs/_static/embed-bundle.js:1 | the first i + 1 commands run as the first i followed by command i, unless those threw |
| Bundle.RunStopsAtThrow | docs/_static/embed-bundle.js:1 | after a throw the remaining commands change nothing |
| Bundle.CapsOfFlags | docs/_static/embed-bundle.js:1 | `enable`/`disable` hold each of the ten capabilities, `cull_face` included, exactly when its flag is set |
| Bundle.PointersOfGroup | docs/_static/embed-bundle.js:1 | the pointers under a group's buffer uid are that group's |
| Bundle.AddBindingRecords | docs/_static/embed-bundle.js:1 | one group per buffer: the pointer joins the group of its buffer (created on first use), and every other buffer's pointers stay |
| Bundle.LinkUniformsGrouped | docs/_static/embed-bundle.js:1 | each active uniform lands in exactly one place: the block its block index names, or the loose list |
| Bundle.GroupsOutsideBlocks | docs/_static/embed-bundle.js:1 | a uniform outside any block, or an inactive index, leaves the blocks as they were |
| Bundle.RecordPointerAppends | docs/_static/embed-bundle.js:1 | a recorded pointer joins the pointers the vertex array keeps for the bound buffer's uid, and only those |
| Bundle.LinkStepAsWritten | docs/_static/embed-bundle.js:1 | `linkProgram` as written: a missing resource, a null object or a failed link throws |
| Bundle.FailedLinkThrowsAsWritten | docs/_static/embed-bundle.js:1 | as written a failed link throws and leaves the message unset; as intended it records the program's log |
| Bundle.DecodeFails | docs/_static/embed-bundle.js:1 | decoding fails exactly when one command's array fails to decode |
| Bundle.DecodeOneView | docs/_static/embed-bundle.js:1 | a command with metadata gives the bytes its index names, viewed as its dtype |
| Bundle.DecodeOneNone | docs/_static/embed-bundle.js:1 | a command without metadata gives no array |
| Bundle.DecodeInOrder | docs/_static/embed-bundle.js:1 | the k-th command with metadata has the k-th decoded array |
| Bundle.Rebased | docs/_static/embed-bundle.js:1 | a stored command keeps every other field and its metadata |
| Bundle.Rebase | docs/_static/embed-bundle.js:1 | one rebased command per command, in order |
| Bundle.ShiftReadsSameArray | docs/_static/embed-bundle.js:1 | a shifted index reads, after the earlier arrays, what it read before |
| Bundle.RebasedReadsSameArray | docs/_static/embed-bundle.js:1 | a rebased command reads, among the stored arrays followed by its own, the array it read among its own |
| Bundle.DecodedIndexIsNumber | docs/_static/embed-bundle.js:1 | a decoded command's index is a number of at least 0, so rebasing keeps its array |
| BundleModel.ViewBlockLayout | docs/_static/embed-bundle.js:1 | the four matrices lie at byte offsets 0, 64, 128, 192 inside the 256-byte view block without overlap; a row-major shader transposes them back |
| BundleModel.Opened | docs/_static/embed-bundle.js:1 | a replay starts from the view block upload appended to the calls made so far |
| BundleModel.GLModel.GetResource | docs/_static/embed-bundle.js:1 | `get_resource(uid)` is the resource at that position, none outside the registry |
| BundleModel.GLModel.constructor | docs/_static/embed-bundle.js:1 | with a context the view block is created and set up and `EXT_color_buffer_float` is requested; without one the console says so; the canvas is sized and the camera is the default translation |
| BundleModel.GLModel.ResizeCanvas | docs/_static/embed-bundle.js:1 | the viewport follows the canvas, and so does the projection |
| BundleModel.GLModel.RegisterResource | docs/_static/embed-bundle.js:1 | the resource is always appended; a uid other than its position only logs an error |
| BundleModel.GLModel.HandleCustomMessages | docs/_static/embed-bundle.js:1 | `clear` empties the stored lists first; an `only_once` batch runs on its own arrays and leaves the store alone; any other batch is stored with its indices rebased; the store is then replayed |
| BundleModel.GLModel.RunOnce | docs/_static/embed-bundle.js:1 | an `only_once` batch runs, then the stored commands unless it threw |
| BundleModel.GLModel.RunStored | docs/_static/embed-bundle.js:1 | after an `only_once` batch, the stored commands replayed unless that batch threw, in which case nothing more happens |
| BundleModel.GLModel.StoreAndRun | docs/_static/embed-bundle.js:1 | the batch is appended with its indices moved past the stored arrays, and everything is replayed |
| BundleModel.GLModel.SetCamera | docs/_static/embed-bundle.js:1 | the attributes take the new values; when one changed, the stored commands are replayed from the new camera |
| BundleModel.GLModel.MoveCamera | docs/_static/embed-bundle.js:1 | the stored commands replayed from the new pose |
| BundleModel.GLModel.ExecuteCommands | docs/_static/embed-bundle.js:1 | nothing without a context; otherwise the four matrices are written into the view block before any command, then the commands run as `Run` describes |
| BundleModel.GLModel.UpdateCamera | docs/_static/embed-bundle.js:1 | the matrices of the pose are kept and written into the view block, transposed for row-major shaders |
| BundleModel.GLModel.Replay | docs/_static/embed-bundle.js:1 | the `forEach` computes `Run` of the commands |
| BundleModel.GLModel.ExecuteNext | docs/_static/embed-bundle.js:1 | one more turn extends `Run` by the next command |
| BundleModel.GLModel.ExecuteCommand | docs/_static/embed-bundle.js:1 | one command changes the state as `Step` describes |
| BundleModel.GLModel.DispatchCommand | docs/_static/embed-bundle.js:1 | a case label changes the state as `Dispatch` describes |
| BundleModel.GLModel.ProgramCommand | docs/_static/embed-bundle.js:1 | `compileShader` and `linkProgram` change the state as `ProgramStep` describes |
| BundleModel.GLModel.BindingCommand | docs/_static/embed-bundle.js:1 | the bind and uniform cases change the state as `BindingStep` describes |
| BundleModel.GLModel.BufferCommand | docs/_static/embed-bundle.js:1 | the buffer cases change the state as `BufferStep` describes |
| BundleModel.GLModel.FixedCommand | docs/_static/embed-bundle.js:1 | a fixed case makes its one call, as `ContextStep` describes |
| BundleModel.GLModel.CallsCommand | docs/_static/embed-bundle.js:1 | a case that calls on looked-up resources makes the calls of `ContextCalls`, or throws with nothing changed |
| BundleModel.GLModel.ContextCommand | docs/_static/embed-bundle.js:1 | the state `ContextStep` describes |
| BundleModel.GLModel.CreateCommand | docs/_static/embed-bundle.js:1 | the state `CreateStep` describes |
| BundleModel.GLModel.CompileCommand | docs/_static/embed-bundle.js:1 | the state `CompileStep` describes |
| BundleModel.GLModel.LinkCommand | docs/_static/embed-bundle.js:1 | the state `LinkStep` describes |
| BundleModel.GLModel.LinkAtCommand | docs/_static/embed-bundle.js:1 | linking the program at a position changes the state as `LinkAt` describes |
| BundleModel.GLModel.RecordLinked | docs/_static/embed-bundle.js:1 | a program that linked ends in the state `LinkedState` describes |
| BundleModel.GLModel.BindCommand | docs/_static/embed-bundle.js:1 | the state `BindStep` describes |
| BundleModel.GLModel.UniformCommand | docs/_static/embed-bundle.js:1 | the state `UniformStep` describes |
| BundleModel.GLModel.BufferDataCommand | docs/_static/embed-bundle.js:1 | the state `BufferDataStep` describes |
| BundleModel.GLModel.CreateUniformBufferCommand | docs/_static/embed-bundle.js:1 | the state `CreateUniformBufferStep` describes |
| BundleModel.GLModel.BufferSubDataCommand | docs/_static/embed-bundle.js:1 | the state `BufferSubDataStep` describes |
| BundleModel.GLModel.VertexAttribCommand | docs/_static/embed-bundle.js:1 | the state `VertexAttribStep` describes |
| BundleModel.GLModel.ResolvedAttribCommand | docs/_static/embed-bundle.js:1 | the state `AttribResolved` describes |
| BundleModel.GLModel.AttribCommand | docs/_static/embed-bundle.js:1 | the state `AttribCalls` describes |
| BundleModel.GLModel.AttribValuesCommand | docs/_static/embed-bundle.js:1 | the state `AttribCalls` describes for `vertexAttrib[1234]fv` and `vertexAttribI4[u]iv`, touching only the context |
| BundleModel.GLModel.Locate | docs/_static/embed-bundle.js:1 | a number index is taken as is; a name is looked up in the bound program's attributes |
| BundleModel.GLModel.RecordPointerCommand | docs/_static/embed-bundle.js:1 | the state `RecordPointer` describes |
| BundleModel.CollectUniforms | docs/_static/embed-bundle.js:1 | the uniform loop computes `LinkUniforms`, grouping by block |
| BundleModel.CollectAttributes | docs/_static/embed-bundle.js:1 | the attribute loop computes `LinkAttributes` |
| BundleModel.DecodeArrays | docs/_static/embed-bundle.js:1 | the first loop computes `Decode` |
| BundleModel.RebaseCommands | docs/_static/embed-bundle.js:1 | the second loop computes `Rebase` |
| Json.Stringify | src/glbufferhelper.ts:12 | a string is written as itself, an integer below 10^21 in magnitude as its decimal digits with its sign, and an object as "[object Object]" |
| Json.IntegerTextInjective | src/glbufferhelper.ts:12 | distinct integers are written differently |
| Json.DecimalDigitsRoundTrip | src/glbufferhelper.ts:12 | reading back the digits an integer is written with gives the integer |
| Json.StringNumber | src/glprogram.ts:139 | the empty text is 0, a run of digits is its decimal value, and any text read as a number is an integer |
| Json.StringNumberOfIntegerText | src/glprogram.ts:139 | the text of every integer, signed or not, converts back to that integer |
| Json.LooseNumber | src/glprogram.ts:139 | what `==` compares with a number: a number as itself, a string by its conversion, and agreement with the relational conversion except for null, which `==` never equates with a number |
| Json.LooseEqualitySeesThrough | src/glprogram.ts:192-196 | an integer, its text and a one-element list of either all loosely equal the integer |
| Json.Elements | src/glprogram.ts:136 | `x[i]` below `x.length`: an array's items, a string's one-character texts, and nothing for other values |

## Left out

- What the GPU does with buffers, shaders, textures and draws: the context only records calls, and its answers to queries are an arbitrary fixed `Gpu`.
- Trigonometry and float rounding. `Math.cos/sin/tan` become parameters (a `Trig` value with the cosine and sine of each angle on the unit circle, and the tangent of the projection's half angle), and numbers are reals. The `Float32Array` conversion of uploaded matrices is the identity here.
- Matrix.Frustrum: degenerate boxes (zero width or height, near == far) are excluded by its requires, because JavaScript divides by zero without failing and the reals cannot.
- Matrix.ProjectionMatrix: excludes a zero tangent, aspect ratio or near plane for the same reason.
- The DOM views (`GLResourceView`, `GLProgramView`, `GLVertexArrayView`, `GLBufferView`), `getCoordinates`, the canvas element and its focus: these are user interface.
- Widget plumbing: `save_changes`, serializers, `touch`, the comm that carries `msg:custom`, and `on_some_change`. A change listener is modelled as the call it makes (`SetCamera`, `ResizeCanvas`). `requestAnimationFrame` is modelled as the `willRedraw` flag and a count of requested frames.
- The webpack runtime and the css and style loaders in the bundle.
- ipywebgl/glprogram.py, ipywebgl/glbuffer.py and ipywebgl/glresource.py: trait declarations and one-line `send` wrappers.
- src/glresource.ts is not part of this model. Of src/glbuffer.ts only `update_buffer` is modelled (`Viewer.GLBuffer`), because `run_commands` calls it.
- The typed-array contents: a view is its element type and its bytes, without decoding numbers from them.
- HostViewer.GLViewer.ClearColor: the float casts are not modelled, because a JSON number is the same value whether cast or not.
- The bundle's view (`redraw`, `requestRedraw`, the mouse and key handlers) is the same code as the view of src/glviewer.ts and is modelled once, as `Viewer.GLViewer`; on the bundle side only the attribute change it makes is modelled (`BundleModel.GLModel.SetCamera`).
- Bundle.Run: textures, framebuffers and the other cases that pass their fields straight through to one context call are grouped as fixed calls. Their argument lists are modelled, but not what the GPU does with them.
- Bundle.Run: the replay links programs with the corrected `Bundle.LinkStep` (see Findings), not with the as-written `Bundle.LinkStepAsWritten`, so a failed link records its log instead of throwing.
- Bundle.Dispatch: uses the corrected link in the same way.
- BundleModel.GLModel.LinkCommand: follows `Bundle.LinkStep`, the corrected link, for the same reason.
- BundleModel.GLModel.ExecuteCommands: replays with the corrected link, so a batch goes on past a failed link where the bundle's stops.
- BundleModel.GLModel.HandleCustomMessages: replays with the corrected link, as `ExecuteCommands` does.
- BundleModel.GLModel.SetCamera: replays with the corrected link, as `ExecuteCommands` does.
- HostVertexArray.Bind: `int()` of non-ASCII Unicode digits is not modelled; such counts are read as rejected (a token from `split()` holds no whitespace, and a sign is modelled).
- Json.Stringify: fractions, integers of magnitude 10^21 and above (written with an exponent), and byte buffers give "[value]" rather than JavaScript's text.
- Viewer.UniformArguments: a `buffer` field holding a string, a list or a plain object, which a typed-array constructor converts element by element, is read as throwing; the host always sends binary data there.
- Viewer.TypedArray: strings, lists and plain objects are not modelled (None), for the same reason.
- Json.StringNumber: a text with surrounding whitespace, a fraction, an exponent, a hexadecimal prefix or "Infinity" reads as no number, where JavaScript converts it; the host sends shapes as lists of integers, so such texts do not arise.
- Json.LooseNumber: a binary buffer compares as its placeholder text, so as no number, where JavaScript would compare the joined text of its elements; shapes are never binary.
- Json.Elements: a plain object with its own `length` property, and a binary buffer, are read as having no elements; the host sends shapes as lists.
- Json.ArrayIndex: a numeric string such as "0" also indexes a JavaScript array; it reads as no element here, since the host sends numbers.

## Findings

| source | as written | input that shows it | evidently intended | confidence | as-written member | corrected member |
|---|---|---|---|---|---|---|
| docs/_static/embed-bundle.js:1 | when `linkProgram` fails, the message is read with `getShaderInfoLog(program)`; a program is not a shader, so WebGL throws a TypeError, the batch stops and the message is never set | one program whose link fails, followed by `{cmd: "linkProgram", program: 0}` | `getProgramInfoLog(program)`: the program's message becomes its link log and the batch goes on | not executed | Bundle.LinkStepAsWritten, Bundle.FailedLinkThrowsAsWritten | Bundle.LinkStep |
