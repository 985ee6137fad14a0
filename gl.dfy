/**
 * The WebGL2 rendering context as the front end sees it: a recorder of the calls it
 * receives, plus an immutable oracle that answers the context's queries (compile
 * and link status, info logs, active uniforms and attributes, locations). What the
 * GPU does with the calls is not part of this model.
 */
module GL {

  import opened Wrappers
  import opened Json
  import ArrayBuffer

  /** A WebGL enumerant (GLenum is a 32-bit unsigned integer). */
  type GLenum = bv32

  // Clear bits.
  const DEPTH_BUFFER_BIT: GLenum := 0x0100
  const STENCIL_BUFFER_BIT: GLenum := 0x0400
  const COLOR_BUFFER_BIT: GLenum := 0x4000

  // Primitive modes.
  const POINTS: GLenum := 0x0000
  const LINES: GLenum := 0x0001
  const LINE_LOOP: GLenum := 0x0002
  const LINE_STRIP: GLenum := 0x0003
  const TRIANGLES: GLenum := 0x0004
  const TRIANGLE_STRIP: GLenum := 0x0005
  const TRIANGLE_FAN: GLenum := 0x0006

  // Depth functions.
  const NEVER: GLenum := 0x0200
  const LESS: GLenum := 0x0201
  const EQUAL: GLenum := 0x0202
  const LEQUAL: GLenum := 0x0203
  const GREATER: GLenum := 0x0204
  const NOTEQUAL: GLenum := 0x0205
  const GEQUAL: GLenum := 0x0206
  const ALWAYS: GLenum := 0x0207

  // Faces and winding.
  const FRONT: GLenum := 0x0404
  const BACK: GLenum := 0x0405
  const FRONT_AND_BACK: GLenum := 0x0408
  const CW: GLenum := 0x0900
  const CCW: GLenum := 0x0901

  // Capabilities.
  const CULL_FACE: GLenum := 0x0B44
  const DEPTH_TEST: GLenum := 0x0B71
  const STENCIL_TEST: GLenum := 0x0B90
  const DITHER: GLenum := 0x0BD0
  const BLEND: GLenum := 0x0BE2
  const SCISSOR_TEST: GLenum := 0x0C11
  const POLYGON_OFFSET_FILL: GLenum := 0x8037
  const SAMPLE_ALPHA_TO_COVERAGE: GLenum := 0x809E
  const SAMPLE_COVERAGE: GLenum := 0x80A0
  const RASTERIZER_DISCARD: GLenum := 0x8C89
  /** The depth attachment, not a capability. */
  const DEPTH: GLenum := 0x1801

  // Component types.
  const BYTE: GLenum := 0x1400
  const UNSIGNED_BYTE: GLenum := 0x1401
  const SHORT: GLenum := 0x1402
  const UNSIGNED_SHORT: GLenum := 0x1403
  const INT: GLenum := 0x1404
  const UNSIGNED_INT: GLenum := 0x1405
  const FLOAT: GLenum := 0x1406
  const HALF_FLOAT: GLenum := 0x140B

  // Buffer binding points.
  const ARRAY_BUFFER: GLenum := 0x8892
  const ELEMENT_ARRAY_BUFFER: GLenum := 0x8893
  const PIXEL_PACK_BUFFER: GLenum := 0x88EB
  const PIXEL_UNPACK_BUFFER: GLenum := 0x88EC
  const UNIFORM_BUFFER: GLenum := 0x8A11
  const TRANSFORM_FEEDBACK_BUFFER: GLenum := 0x8C8E
  const COPY_READ_BUFFER: GLenum := 0x8F36
  const COPY_WRITE_BUFFER: GLenum := 0x8F37

  // Buffer usages.
  const STREAM_DRAW: GLenum := 0x88E0
  const STREAM_READ: GLenum := 0x88E1
  const STREAM_COPY: GLenum := 0x88E2
  const STATIC_DRAW: GLenum := 0x88E4
  const STATIC_READ: GLenum := 0x88E5
  const STATIC_COPY: GLenum := 0x88E6
  const DYNAMIC_DRAW: GLenum := 0x88E8
  const DYNAMIC_READ: GLenum := 0x88E9
  const DYNAMIC_COPY: GLenum := 0x88EA

  // Shader kinds and texture units.
  const FRAGMENT_SHADER: GLenum := 0x8B30
  const VERTEX_SHADER: GLenum := 0x8B31
  const TEXTURE0: GLenum := 0x84C0

  /** The bitwise OR of the enumerants, in order; 0 for none. */
  function OrOf(enums: seq<GLenum>): GLenum
  {
    if |enums| == 0 then 0 else OrOf(enums[..|enums| - 1]) | enums[|enums| - 1]
  }

  /** A GL object (shader, program, buffer, ...): the position of the call that created it. */
  type Handle = nat

  /** A uniform location object handed out by the context. */
  type Location = nat

  /** One argument of a recorded call. */
  datatype Arg =
    | Val(j: Json)                  // a command field passed through unchanged
    | Num(n: int)                   // a number the front end computed (offset, size, index)
    | Flag(b: bool)                 // a boolean literal of the front end
    | Enum(e: GLenum)               // an enumerant the front end chose itself
    | Mask(enums: seq<GLenum>)      // enumerants OR-ed together: the context receives OrOf(enums)
    | Named(name: Json)             // gl[name]: the context constant named by a command field
    | UnitOf(j: Json)               // gl.TEXTURE0 + j
    | Object(h: Option<Handle>)     // a GL object, or null
    | Loc(l: Option<Location>)      // a uniform location, or null
    | Data(view: ArrayBuffer.View)  // a typed array over uploaded bytes
    | Floats(m: seq<real>)          // a Float32Array built from numbers
    | Text(s: string)               // a string (shader source, attribute name)
    | List(items: seq<Arg>)         // a JavaScript array of arguments

  /** The component suffix of a `uniform*v` call. */
  datatype UniformKind = iv | uiv | fv

  /**
   * The WebGL2 methods the front end calls, named as in the WebGL API. Families are
   * parametrised: `uniform(3, fv)` is `uniform3fv`, `uniformMatrix(2, 3)` is
   * `uniformMatrix2x3fv` (`uniformMatrix(n, n)` being `uniformMatrix{n}fv`), and
   * `vertexAttribfv(4)` is `vertexAttrib4fv`.
   */
  datatype Fn =
    | activeTexture | attachShader | bindAttribLocation | bindBuffer | bindBufferBase | bindFramebuffer
    | bindTexture | bindVertexArray | blendColor | blendEquation | blendEquationSeparate | blendFunc
    | blendFuncSeparate | bufferData | bufferSubData | clear | clearColor | compileShader | createBuffer
    | createFramebuffer | createProgram | createShader | createTexture | createVertexArray | cullFace
    | deleteProgram | deleteShader | depthFunc | depthMask | depthRange | disable | disableVertexAttribArray
    | drawArrays | drawArraysInstanced | drawBuffers | drawElements | drawElementsInstanced | enable
    | enableVertexAttribArray | framebufferTexture2D | frontFace | generateMipmap | getExtension | linkProgram | pixelStorei
    | shaderSource | texImage2D | texImage3D | texParameterf | texParameteri | texStorage2D | texStorage3D
    | uniform(size: nat, kind: UniformKind) | uniformMatrix(columns: nat, rows: nat) | uniformBlockBinding
    | useProgram | validateProgram | vertexAttribfv(components: nat) | vertexAttribI4iv | vertexAttribI4uiv
    | vertexAttribIPointer | vertexAttribPointer | viewport

  /** One call the context received: the WebGL method and its arguments. */
  datatype Call = Call(fn: Fn, args: seq<Arg>)

  /** What `getActiveUniform` and `getActiveAttrib` report for one index. */
  datatype ActiveInfo = ActiveInfo(name: string, typeName: string, size: int)

  /**
   * The answers the context gives to queries. Objects are identified by their
   * handle; the oracle is fixed, so a query about the same object and arguments
   * always gets the same answer. A query or call given null where WebGL 2 declares a
   * non-nullable object parameter throws a TypeError instead of reaching the context.
   */
  datatype Gpu = Gpu(
    lost: bool,                                     // create* returns null
    compiles: Handle -> bool,                       // COMPILE_STATUS
    shaderLog: Handle -> string,                    // getShaderInfoLog
    links: Handle -> bool,                          // LINK_STATUS
    programLog: Handle -> string,                   // getProgramInfoLog
    uniformLocation: (Handle, string) -> Option<Location>,  // never asked about null: that throws
    attribLocation: (Handle, string) -> int,                // never asked about null: that throws
    viewBlockIndex: Handle -> int,                  // getUniformBlockIndex(p, "ViewBlock")
    activeUniforms: Handle -> seq<Option<ActiveInfo>>,
    uniformBlockIndex: (Handle, nat) -> int,        // UNIFORM_BLOCK_INDEX of uniform i
    uniformOffset: (Handle, nat) -> int,            // UNIFORM_OFFSET of uniform i
    blockName: (Handle, int) -> string,
    blockSize: (Handle, int) -> int,                // UNIFORM_BLOCK_DATA_SIZE
    activeAttributes: Handle -> seq<Option<ActiveInfo>>,
    bufferSize: Json -> int                         // BUFFER_SIZE of the buffer bound at a target
  )

  /** The calls made so far, appended in order; objects are created by a call. */
  class Context {
    var calls: seq<Call>
    const gpu: Gpu

    constructor(gpu: Gpu)
      ensures calls == [] && this.gpu == gpu
    {
      calls := [];
      this.gpu := gpu;
    }

    /** Records one call. */
    method Issue(fn: Fn, args: seq<Arg>)
      modifies this
      ensures calls == old(calls) + [Call(fn, args)]
    {
      calls := calls + [Call(fn, args)];
    }

    /** Records several calls, in order. */
    method IssueAll(cs: seq<Call>)
      modifies this
      ensures calls == old(calls) + cs
    {
      calls := calls + cs;
    }

    /** Records a create* call; the new object is named by the call's position, or is null. */
    method Create(fn: Fn, args: seq<Arg>) returns (h: Option<Handle>)
      modifies this
      ensures calls == old(calls) + [Call(fn, args)]
      ensures h == NewObject(gpu, old(calls))
    {
      h := NewObject(gpu, calls);
      calls := calls + [Call(fn, args)];
    }
  }

  /** The object a create* call makes when `log` is what the context received before it. */
  function NewObject(gpu: Gpu, log: seq<Call>): (h: Option<Handle>)
    ensures gpu.lost <==> h.None?
    ensures h.Some? ==> h.value == |log|
  {
    if gpu.lost then None else Some(|log|)
  }

  /** The object `c` passes as first argument, when `c` is a call of `f`. */
  function PassedBy(c: Call, f: Fn): seq<Option<Handle>>
  {
    if c.fn == f && |c.args| > 0 && c.args[0].Object? then [c.args[0].h] else []
  }

  /** The objects passed as first argument to the calls of `f` in `calls`, in order. */
  function ObjectsPassedTo(calls: seq<Call>, f: Fn): seq<Option<Handle>>
  {
    if |calls| == 0 then [] else PassedBy(calls[0], f) + ObjectsPassedTo(calls[1..], f)
  }

  /** Splitting a log splits the objects each function was called with. */
  lemma {:induction false} ObjectsPassedToAppend(a: seq<Call>, b: seq<Call>, f: Fn)
    ensures ObjectsPassedTo(a + b, f) == ObjectsPassedTo(a, f) + ObjectsPassedTo(b, f)
    decreases |a|
  {
    if |a| == 0 {
      assert a + b == b;
    } else {
      assert (a + b)[1..] == a[1..] + b;
      ObjectsPassedToAppend(a[1..], b, f);
    }
  }

  /** A single call passes what it passes. */
  lemma ObjectsPassedToOne(a: Call, f: Fn)
    ensures ObjectsPassedTo([a], f) == PassedBy(a, f)
  {
    assert [a][1..] == [];
  }

  /** Three calls pass what each passes, in order. */
  lemma ObjectsPassedToThree(a: Call, b: Call, c: Call, f: Fn)
    ensures ObjectsPassedTo([a, b, c], f) == PassedBy(a, f) + PassedBy(b, f) + PassedBy(c, f)
  {
    assert [a, b, c][1..] == [b, c];
    assert [b, c][1..] == [c];
    ObjectsPassedToOne(c, f);
  }

  /** The calls of `f` in `calls`, in order. */
  function CallsOf(calls: seq<Call>, f: Fn): (r: seq<Call>)
    ensures |r| <= |calls|
    ensures forall i | 0 <= i < |r| :: r[i].fn == f
  {
    if |calls| == 0 then []
    else (if calls[0].fn == f then [calls[0]] else []) + CallsOf(calls[1..], f)
  }

  /** Splitting a log splits the calls of each function. */
  lemma {:induction false} CallsOfAppend(a: seq<Call>, b: seq<Call>, f: Fn)
    ensures CallsOf(a + b, f) == CallsOf(a, f) + CallsOf(b, f)
    decreases |a|
  {
    if |a| == 0 {
      assert a + b == b;
    } else {
      assert (a + b)[1..] == a[1..] + b;
      CallsOfAppend(a[1..], b, f);
    }
  }

  /** Two calls: each is kept when it is a call of `f`. */
  lemma CallsOfTwo(a: Call, b: Call, f: Fn)
    ensures CallsOf([a, b], f) == (if a.fn == f then [a] else []) + (if b.fn == f then [b] else [])
  {
    assert [a, b][1..] == [b];
    assert [b][1..] == [];
  }
}
