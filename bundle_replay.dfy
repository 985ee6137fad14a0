/**
 * The command interpreter of the built front end: `GLModel` of
 * docs/_static/embed-bundle.js (module 625 of the bundle), the newest form of the
 * replay, which works on a registry of resources rather than on typed registries.
 *
 * Every GL object the host creates is a resource widget, registered at the position
 * of its uid; `execute_command` stores the object the context created in the
 * resource's `_gl_ptr` and what it learnt about it (compile or link message, active
 * uniforms, uniform blocks, attributes, vertex-array bindings) in its `_info`. A
 * command is a JavaScript object read field by field; its binary data, when it has
 * some, is one of the typed arrays decoded from the message's buffers, named by
 * `buffer_metadata.index`.
 *
 * This module holds the replay as functions over values; `BundleModel` holds the
 * widget model that runs it.
 */
module Bundle {

  import opened Wrappers
  import opened Json
  import opened GL
  import ArrayBuffer
  import Viewer

  // ---------------------------------------------------------------------------
  // The commands: one kind per case label of `execute_command`'s switch.
  // ---------------------------------------------------------------------------

  datatype Kind =
    | Viewport | Enable | Disable | ClearColor | Clear | FrontFace | CullFace | DepthFunc | DepthMask | DepthRange
    | BlendColor | BlendEquation | BlendEquationSeparate | BlendFunc | BlendFuncSeparate
    | CreateTexture | BindTexture | ActiveTexture | GenerateMipmap | TexImage2D | TexStorage2D | TexImage3D
    | TexStorage3D | TexParameteri | TexParameterf | TexParameterStr | PixelStorei
    | CreateShader | ShaderSource | CompileShader | CreateProgram | AttachShader | BindAttribLocation | LinkProgram
    | UseProgram | Uniform | UniformMatrix | UniformBlockBinding
    | CreateBuffer | BindBuffer | BindBufferBase | BufferData | CreateUniformBuffer | BufferSubData | BufferSubDataStr
    | CreateVertexArray | BindVertexArray | VertexAttribPointer | VertexAttribIPointer | EnableVertexAttribArray
    | DisableVertexAttribArray | VertexAttribFv | VertexAttribI4iv
    | DrawArrays | DrawArraysInstanced | DrawElements | DrawElementsInstanced
    | CreateFramebuffer | BindFramebuffer | FramebufferTexture2D | DrawBuffers
  {
    /** The six cases that create a GL object and store it in a resource. */
    predicate Creates()
    {
      this in {CreateTexture, CreateShader, CreateProgram, CreateBuffer, CreateVertexArray, CreateFramebuffer}
    }

    /** The two cases on shaders and programs beyond creating them. */
    predicate OnProgram()
    {
      this == CompileShader || this == LinkProgram
    }

    /** The three bind cases the model tracks, and the two uniform uploads. */
    predicate Binds()
    {
      this == UseProgram || this == BindVertexArray || this == BindBuffer || this == Uniform || this == UniformMatrix
    }

    /** The six cases that resolve an attribute index first. */
    predicate OnAttribute()
    {
      this in {VertexAttribPointer, VertexAttribIPointer, EnableVertexAttribArray, DisableVertexAttribArray,
               VertexAttribFv, VertexAttribI4iv}
    }
  }

  /** The case a `cmd` string selects (`switch` compares with `===`); none for any other string. */
  function CaseOf(cmd: string): Option<Kind>
  {
    match cmd
    case "viewport" => Some(Viewport)
    case "enable" => Some(Enable)
    case "disable" => Some(Disable)
    case "clearColor" => Some(ClearColor)
    case "clear" => Some(Clear)
    case "frontFace" => Some(FrontFace)
    case "cullFace" => Some(CullFace)
    case "depthFunc" => Some(DepthFunc)
    case "depthMask" => Some(DepthMask)
    case "depthRange" => Some(DepthRange)
    case "blendColor" => Some(BlendColor)
    case "blendEquation" => Some(BlendEquation)
    case "blendEquationSeparate" => Some(BlendEquationSeparate)
    case "blendFunc" => Some(BlendFunc)
    case "blend_func_separate" => Some(BlendFuncSeparate)
    case "createTexture" => Some(CreateTexture)
    case "bindTexture" => Some(BindTexture)
    case "activeTexture" => Some(ActiveTexture)
    case "generateMipmap" => Some(GenerateMipmap)
    case "texImage2D" => Some(TexImage2D)
    case "texStorage2D" => Some(TexStorage2D)
    case "texImage3D" => Some(TexImage3D)
    case "texStorage3D" => Some(TexStorage3D)
    case "texParameteri" => Some(TexParameteri)
    case "texParameterf" => Some(TexParameterf)
    case "texParameter_str" => Some(TexParameterStr)
    case "pixelStorei" => Some(PixelStorei)
    case "createShader" => Some(CreateShader)
    case "shaderSource" => Some(ShaderSource)
    case "compileShader" => Some(CompileShader)
    case "createProgram" => Some(CreateProgram)
    case "attachShader" => Some(AttachShader)
    case "bindAttribLocation" => Some(BindAttribLocation)
    case "linkProgram" => Some(LinkProgram)
    case "useProgram" => Some(UseProgram)
    case "uniform" => Some(Uniform)
    case "uniformMatrix" => Some(UniformMatrix)
    case "uniformBlockBinding" => Some(UniformBlockBinding)
    case "createBuffer" => Some(CreateBuffer)
    case "bindBuffer" => Some(BindBuffer)
    case "bindBufferBase" => Some(BindBufferBase)
    case "bufferData" => Some(BufferData)
    case "createUniformBuffer" => Some(CreateUniformBuffer)
    case "bufferSubData" => Some(BufferSubData)
    case "bufferSubDataStr" => Some(BufferSubDataStr)
    case "createVertexArray" => Some(CreateVertexArray)
    case "bindVertexArray" => Some(BindVertexArray)
    case "vertexAttribPointer" => Some(VertexAttribPointer)
    case "vertexAttribIPointer" => Some(VertexAttribIPointer)
    case "enableVertexAttribArray" => Some(EnableVertexAttribArray)
    case "disableVertexAttribArray" => Some(DisableVertexAttribArray)
    case "vertexAttrib[1234]fv" => Some(VertexAttribFv)
    case "vertexAttribI4[u]iv" => Some(VertexAttribI4iv)
    case "drawArrays" => Some(DrawArrays)
    case "drawArraysInstanced" => Some(DrawArraysInstanced)
    case "drawElements" => Some(DrawElements)
    case "drawElementsInstanced" => Some(DrawElementsInstanced)
    case "createFramebuffer" => Some(CreateFramebuffer)
    case "bindFramebuffer" => Some(BindFramebuffer)
    case "framebufferTexture2D" => Some(FramebufferTexture2D)
    case "drawBuffers" => Some(DrawBuffers)
    case _ => None
  }

  /** The kind of a command, when its `cmd` is one of the labels. */
  function KindOf(c: Json): Option<Kind>
  {
    var cmd := Field(c, "cmd");
    if cmd.JStr? then CaseOf(cmd.s) else None
  }

  // ---------------------------------------------------------------------------
  // What a replay reads and changes.
  // ---------------------------------------------------------------------------

  /** An entry of a program's `uniforms`: a uniform outside every block, and its location. */
  datatype UniformInfo = UniformInfo(name: string, typeName: string, size: int, location: Option<Location>)

  /** An entry of a block's `uniforms`: a uniform inside the block, and its byte offset there. */
  datatype BlockMember = BlockMember(name: string, typeName: string, size: int, offset: int)

  /** An entry of a program's `uniforms_blocks`: the block's index, name, data size and members. */
  datatype Block = Block(index: int, name: string, size: int, uniforms: seq<BlockMember>)

  /** An entry of a program's `attributes`. */
  datatype AttributeInfo = AttributeInfo(name: string, typeName: string, size: int, location: int)

  /**
   * An attribute pointer a vertex array recorded: the call that set it, the
   * attribute location and the command's fields; only `vertexAttribPointer` records
   * `normalized`.
   */
  datatype Pointer = Pointer(pointer: string, index: real, size: Json, typ: Json, normalized: Option<Json>, stride: Json, offset: Json)

  /** An entry of a vertex array's `bindings`: the pointers set while the buffer with this uid was bound to ARRAY_BUFFER. */
  datatype Binding = Binding(bufferUid: int, attributes: seq<Pointer>)

  /**
   * A resource's `_info`, a JavaScript object whose properties are present or not:
   * `kind` is its `type`, `blocks` its `uniforms_blocks`, `uniformBlock` its
   * `uniformblock`.
   */
  datatype Info = Info(
    kind: Json,
    message: Option<Json>,
    uniforms: Option<seq<UniformInfo>>,
    blocks: Option<seq<Block>>,
    attributes: Option<seq<AttributeInfo>>,
    bindings: Option<seq<Binding>>,
    size: Option<Json>,
    target: Option<Json>,
    uniformBlock: Option<Block>)

  /** An `_info` holding only its `type`. */
  function Typed(kind: Json): Info
  {
    Info(kind, None, None, None, None, None, None, None, None)
  }

  /** A resource widget: its uid, its `_gl_ptr` (the GL object, or null) and its `_info`. */
  datatype Resource = Resource(uid: int, ptr: Option<Handle>, info: Info)

  /** What a replay reads and never changes: the context's answers and the decoded arrays its commands name. */
  datatype Scene = Scene(gpu: Gpu, views: seq<ArrayBuffer.View>)

  /**
   * What a replay changes: the calls made, the console, the resources, the resource
   * bound at each buffer target (null after an unbinding), and the bound program
   * and vertex array. Resources are named by their position in the registry, which
   * only grows, so a position names one resource for good.
   */
  datatype Machine = Machine(
    calls: seq<Call>,
    console: seq<string>,
    resources: seq<Resource>,
    boundBuffers: map<Json, Option<nat>>,
    program: Option<nat>,
    vao: Option<nat>)
  {
    /** Every binding names a registered resource. */
    predicate Fits()
    {
      (program.Some? ==> program.value < |resources|) &&
      (vao.Some? ==> vao.value < |resources|) &&
      forall t | t in boundBuffers && boundBuffers[t].Some? :: boundBuffers[t].value < |resources|
    }
  }

  /** A replay only adds: the registry keeps its length and bindings, calls and console lines are appended. */
  predicate Grows(m: Machine, m': Machine)
  {
    m'.Fits() && |m'.resources| == |m.resources| && m.calls <= m'.calls && m.console <= m'.console
  }

  /** The state after a command, and whether it threw (which abandons the rest of the batch). */
  datatype Outcome = Outcome(state: Machine, threw: bool)

  // ---------------------------------------------------------------------------
  // Reading commands.
  // ---------------------------------------------------------------------------

  /** A command field passed to the context as it is. */
  function Value(c: Json, key: string): Arg
  {
    Val(Field(c, key))
  }

  /** `gl[command.key]`: the context constant a command field names. */
  function Constant(c: Json, key: string): Arg
  {
    Named(Field(c, key))
  }

  /** `command.hasOwnProperty(key)`. */
  predicate HasOwn(c: Json, key: string)
  {
    c.JObj? && key in c.fields
  }

  /** `command.buffer_metadata.key`: a TypeError when the metadata is null or undefined. */
  function Meta(c: Json, key: string): Result<Json, string>
  {
    Prop(Field(c, "buffer_metadata"), key)
  }

  /** `r[j]` on the decoded arrays: the array at an integral position in range, else undefined. */
  function ViewAt(views: seq<ArrayBuffer.View>, j: Json): (r: Arg)
    ensures r.Data? <==> ArrayIndex(j, |views|).Some?
    ensures r.Data? ==> r.view == views[ArrayIndex(j, |views|).value]
  {
    var i := ArrayIndex(j, |views|);
    if i.Some? then Data(views[i.value]) else Val(JUndefined)
  }

  /** `shape[k]` on a shape array or string; undefined outside it, or on any other value. */
  function Entry(shape: Json, k: int): (r: Json)
    ensures r == if 0 <= k < |Elements(shape)| then Elements(shape)[k] else JUndefined
  {
    if shape.JArr? && 0 <= k < |shape.items| then shape.items[k]
    else if shape.JStr? && 0 <= k < |shape.s| then JStr([shape.s[k]])
    else JUndefined
  }

  /** `shape[shape.length - k]`. */
  function FromEnd(shape: Json, k: nat): Json
  {
    if shape.JArr? then Entry(shape, |shape.items| - k)
    else if shape.JStr? then Entry(shape, |shape.s| - k)
    else JUndefined
  }

  /**
   * The size a chain `1 == j ? ... : 2 == j ? ... : 3 == j ? ... : 4 == j && ...`
   * selects: the one of 1 to 4 that j loosely equals (`true` is 1, "2" and `[2]`
   * are 2).
   */
  function Dim(j: Json): (r: Option<nat>)
    ensures r.Some? ==> 1 <= r.value <= 4 && LooselyEquals(j, r.value)
    ensures r.None? ==> !LooselyEquals(j, 1) && !LooselyEquals(j, 2) && !LooselyEquals(j, 3) && !LooselyEquals(j, 4)
  {
    var n := LooseNumber(j);
    if n == Some(1.0) then Some(1)
    else if n == Some(2.0) then Some(2)
    else if n == Some(3.0) then Some(3)
    else if n == Some(4.0) then Some(4)
    else None
  }

  /** `s.findIndex(p)`: the position of the first element satisfying `p`, if any. */
  function FindIndex<T>(s: seq<T>, p: T -> bool): (r: Option<nat>)
    ensures r.Some? ==> r.value < |s| && p(s[r.value]) && forall j | 0 <= j < r.value :: !p(s[j])
    ensures r.None? ==> forall j | 0 <= j < |s| :: !p(s[j])
    decreases |s|
  {
    if |s| == 0 then None
    else if p(s[0]) then Some(0)
    else
      var r := FindIndex(s[1..], p);
      assert forall j | 1 <= j < |s| :: s[j] == s[1..][j - 1];
      if r.None? then None else Some(r.value + 1)
  }

  /** `s.find(p)`: the first element satisfying `p`, if any. */
  function ArrayFind<T>(s: seq<T>, p: T -> bool): (r: Option<T>)
  {
    var i := FindIndex(s, p);
    if i.Some? then Some(s[i.value]) else None
  }

  /** `blocks.find(b => b.name == name)`. */
  function FindBlock(blocks: seq<Block>, name: Json): Option<Block>
  {
    ArrayFind(blocks, (b: Block) => JStr(b.name) == name)
  }

  /** `uniforms.find(u => u.name == name)`. */
  function FindUniform(uniforms: seq<UniformInfo>, name: Json): Option<UniformInfo>
  {
    ArrayFind(uniforms, (u: UniformInfo) => JStr(u.name) == name)
  }

  /** `attributes.find(a => a.name == name)`. */
  function FindAttribute(attributes: seq<AttributeInfo>, name: Json): Option<AttributeInfo>
  {
    ArrayFind(attributes, (a: AttributeInfo) => JStr(a.name) == name)
  }

  /** `uniformblock.uniforms.find(u => u.name == name)`. */
  function FindMember(members: seq<BlockMember>, name: Json): Option<BlockMember>
  {
    ArrayFind(members, (u: BlockMember) => JStr(u.name) == name)
  }

  // ---------------------------------------------------------------------------
  // Resources.
  // ---------------------------------------------------------------------------

  /**
   * What `get_resource(j)` followed by `.get("_gl_ptr")` gives: a TypeError when no
   * resource is at the position, or the resource chosen (none when the command's
   * guard, `>= 0` or `> -1`, sends null instead).
   */
  datatype Selection = Missing | Selected(i: Option<nat>)

  /** The resource at position `j`, looked up only when `guard` holds. */
  function Select(m: Machine, j: Json, guard: bool): (r: Selection)
    ensures !guard ==> r == Selected(None)
    ensures guard ==> (r.Missing? <==> ArrayIndex(j, |m.resources|).None?)
    ensures guard && r.Selected? ==> r.i == ArrayIndex(j, |m.resources|)
    ensures r.Selected? && r.i.Some? ==> r.i.value < |m.resources|
  {
    if !guard then Selected(None)
    else
      var i := ArrayIndex(j, |m.resources|);
      if i.None? then Missing else Selected(i)
  }

  /** The GL object of a selection: the resource's `_gl_ptr`, or null. */
  function ObjectOf(m: Machine, s: Selection): Option<Handle>
    requires s.Selected? && (s.i.Some? ==> s.i.value < |m.resources|)
  {
    if s.i.Some? then m.resources[s.i.value].ptr else None
  }

  /** `fn(before..., object, after...)` on the selected object; None when the lookup throws. */
  function CallOn(m: Machine, s: Selection, fn: Fn, before: seq<Arg>, after: seq<Arg>): Option<seq<Call>>
    requires s.Selected? && s.i.Some? ==> s.i.value < |m.resources|
  {
    if s.Missing? then None else Some([Call(fn, before + [Object(ObjectOf(m, s))] + after)])
  }

  /**
   * `CallOn` for a parameter that is not nullable: None also when the selected
   * object is null, which the context rejects with a TypeError.
   */
  function CallOnObject(m: Machine, s: Selection, fn: Fn, before: seq<Arg>, after: seq<Arg>): (r: Option<seq<Call>>)
    requires s.Selected? && s.i.Some? ==> s.i.value < |m.resources|
    ensures r.Some? <==> s.Selected? && ObjectOf(m, s).Some?
    ensures r.Some? ==> r.value == [Call(fn, before + [Object(ObjectOf(m, s))] + after)]
  {
    if s.Missing? || ObjectOf(m, s).None? then None else CallOn(m, s, fn, before, after)
  }

  /** `bound_buffers[target]`: the resource bound there; none when it was unbound or never bound. */
  function BoundAt(m: Machine, target: Json): (r: Option<nat>)
    requires m.Fits()
    ensures r.Some? ==> r.value < |m.resources|
  {
    if target in m.boundBuffers then m.boundBuffers[target] else None
  }

  /** COMPILE_STATUS of a shader object; a null object never gets this far (the context rejects it). */
  predicate Compiled(g: Gpu, a: Option<Handle>)
  {
    a.Some? && g.compiles(a.value)
  }

  /** LINK_STATUS, as `Compiled`. */
  predicate Linked(g: Gpu, a: Option<Handle>)
  {
    a.Some? && g.links(a.value)
  }

  // ---------------------------------------------------------------------------
  // The cases.
  // ---------------------------------------------------------------------------

  /**
   * The flags `enable` and `disable` test, in order, and the capability each ORs in:
   * `depth_test` gives DEPTH_TEST and `cull_face` is read.
   */
  const CapsTable: seq<(string, GLenum)> := [
    ("blend", BLEND),
    ("depth_test", DEPTH_TEST),
    ("dither", DITHER),
    ("polygon_offset_fill", POLYGON_OFFSET_FILL),
    ("sample_alpha_to_coverage", SAMPLE_ALPHA_TO_COVERAGE),
    ("sample_coverage", SAMPLE_COVERAGE),
    ("scissor_test", SCISSOR_TEST),
    ("stencil_test", STENCIL_TEST),
    ("rasterizer_discard", RASTERIZER_DISCARD),
    ("cull_face", CULL_FACE)
  ]

  /** The capabilities an `enable` or `disable` command sets, OR-ed together. */
  function Caps(c: Json): seq<GLenum>
  {
    Viewer.SetFlags(c, CapsTable)
  }

  /**
   * The single call of a case that reads nothing but its own fields: the
   * fixed-function state, the texture parameters and the draws. None for the
   * other cases.
   */
  function FixedCall(c: Json, k: Kind): Option<Call>
  {
    match k
    case Viewport => Some(Call(viewport, [Value(c, "x"), Value(c, "y"), Value(c, "width"), Value(c, "height")]))
    case Enable => Some(Call(enable, [Mask(Caps(c))]))
    case Disable => Some(Call(disable, [Mask(Caps(c))]))
    case ClearColor => Some(Call(clearColor, [Value(c, "r"), Value(c, "g"), Value(c, "b"), Value(c, "a")]))
    case Clear => Some(Call(clear, [Enum(Viewer.ClearBits(c))]))
    case FrontFace => Some(Call(frontFace, [Constant(c, "mode")]))
    case CullFace => Some(Call(cullFace, [Constant(c, "mode")]))
    case DepthFunc => Some(Call(depthFunc, [Constant(c, "func")]))
    case DepthMask => Some(Call(depthMask, [Value(c, "flag")]))
    case DepthRange => Some(Call(depthRange, [Value(c, "z_near"), Value(c, "z_far")]))
    case BlendColor => Some(Call(blendColor, [Value(c, "r"), Value(c, "g"), Value(c, "b"), Value(c, "a")]))
    case BlendEquation => Some(Call(blendEquation, [Constant(c, "mode")]))
    case BlendEquationSeparate => Some(Call(blendEquationSeparate, [Constant(c, "mode_rgb"), Constant(c, "mode_alpha")]))
    case BlendFunc => Some(Call(blendFunc, [Constant(c, "s_factor"), Constant(c, "d_factor")]))
    case BlendFuncSeparate =>
      Some(Call(blendFuncSeparate, [Constant(c, "src_rgb"), Constant(c, "dst_rgb"), Constant(c, "src_alpha"), Constant(c, "dst_alpha")]))
    case ActiveTexture => Some(Call(activeTexture, [UnitOf(Field(c, "texture"))]))
    case GenerateMipmap => Some(Call(generateMipmap, [Constant(c, "target")]))
    case TexStorage2D =>
      Some(Call(texStorage2D, [Constant(c, "target"), Value(c, "levels"), Constant(c, "internal_format"), Value(c, "width"), Value(c, "height")]))
    case TexStorage3D =>
      Some(Call(texStorage3D, [Constant(c, "target"), Value(c, "levels"), Constant(c, "internal_format"), Value(c, "width"), Value(c, "height"),
                               Value(c, "depth")]))
    case TexParameteri => Some(Call(texParameteri, [Constant(c, "target"), Constant(c, "pname"), Value(c, "param")]))
    case TexParameterf => Some(Call(texParameterf, [Constant(c, "target"), Constant(c, "pname"), Value(c, "param")]))
    case TexParameterStr => Some(Call(texParameteri, [Constant(c, "target"), Constant(c, "pname"), Constant(c, "param")]))
    case PixelStorei =>
      var param := if Field(c, "pname") == JStr("UNPACK_COLORSPACE_CONVERSION_WEBGL") then Constant(c, "param") else Value(c, "param");
      Some(Call(pixelStorei, [Constant(c, "pname"), param]))
    case DrawArrays => Some(Call(drawArrays, [Constant(c, "mode"), Value(c, "first"), Value(c, "count")]))
    case DrawArraysInstanced =>
      Some(Call(drawArraysInstanced, [Constant(c, "mode"), Value(c, "first"), Value(c, "count"), Value(c, "instance_count")]))
    case DrawElements => Some(Call(drawElements, [Constant(c, "mode"), Value(c, "count"), Constant(c, "type"), Value(c, "offset")]))
    case DrawElementsInstanced =>
      Some(Call(drawElementsInstanced, [Constant(c, "mode"), Value(c, "count"), Constant(c, "type"), Value(c, "offset"),
                                        Value(c, "instance_count")]))
    case _ => None
  }

  /**
   * The data argument of a command with optional metadata: the array
   * `buffer_metadata.index` names, or null without metadata; None when the metadata
   * is null or undefined (reading the index throws).
   */
  function MetadataArray(s: Scene, c: Json): Option<Arg>
  {
    if HasOwn(c, "buffer_metadata") then
      var j := Meta(c, "index");
      if j.Failure? then None else Some(ViewAt(s.views, j.value))
    else Some(Val(JNull))
  }

  /** `texImage2D` and `texImage3D` (which also passes `depth`). */
  function TexImageCall(s: Scene, c: Json, threeD: bool): Option<seq<Call>>
  {
    var data := MetadataArray(s, c);
    if data.None? then None
    else
      var size := [Value(c, "width"), Value(c, "height")] + if threeD then [Value(c, "depth")] else [];
      Some([Call(if threeD then texImage3D else texImage2D,
                 [Constant(c, "target"), Value(c, "level"), Constant(c, "internal_format")] + size +
                 [Value(c, "border"), Constant(c, "format"), Constant(c, "data_type"), data.value])])
  }

  /**
   * `uniformBlockBinding`: the program's block of that name is given the binding
   * point; nothing when it has none. Throws when the program or its block list is
   * missing, or when the block is found but the program object is null.
   */
  function BlockBindingCalls(m: Machine, c: Json): Option<seq<Call>>
  {
    var p := Select(m, Field(c, "program"), true);
    if p.Missing? then None
    else
      var blocks := m.resources[p.i.value].info.blocks;
      if blocks.None? then None
      else
        var b := FindBlock(blocks.value, Field(c, "uniform_block_name"));
        if b.None? then Some([])
        else CallOnObject(m, p, uniformBlockBinding, [], [Num(b.value.index), Value(c, "uniform_block_binding")])
  }

  /**
   * The cases that only call the context but may throw first: their calls, or None
   * when they throw. `shaderSource`, `attachShader` and `bindAttribLocation` reject
   * a null object; `bindTexture`, `bindBufferBase`, `bindFramebuffer` and
   * `framebufferTexture2D` accept one.
   */
  function ContextCalls(s: Scene, m: Machine, c: Json, k: Kind): Option<seq<Call>>
  {
    match k
    case TexImage2D => TexImageCall(s, c, false)
    case TexImage3D => TexImageCall(s, c, true)
    case BindTexture =>
      var t := Field(c, "texture");
      CallOn(m, Select(m, t, Above(t, -1)), bindTexture, [Constant(c, "target")], [])
    case ShaderSource => CallOnObject(m, Select(m, Field(c, "shader"), true), shaderSource, [], [Value(c, "source")])
    case AttachShader =>
      var p := Select(m, Field(c, "program"), true);
      var sh := Select(m, Field(c, "shader"), true);
      if p.Missing? || sh.Missing? || ObjectOf(m, p).None? || ObjectOf(m, sh).None? then None
      else Some([Call(attachShader, [Object(ObjectOf(m, p)), Object(ObjectOf(m, sh))])])
    case BindAttribLocation =>
      CallOnObject(m, Select(m, Field(c, "program"), true), bindAttribLocation, [], [Value(c, "index"), Value(c, "name")])
    case BindBufferBase =>
      var b := Field(c, "buffer");
      CallOn(m, Select(m, b, AtLeast(b, 0)), bindBufferBase, [Constant(c, "target"), Value(c, "index")], [])
    case BindFramebuffer =>
      var f := Field(c, "framebuffer");
      CallOn(m, Select(m, f, AtLeast(f, 0)), bindFramebuffer, [Constant(c, "target")], [])
    case FramebufferTexture2D =>
      CallOn(m, Select(m, Field(c, "texture"), true), framebufferTexture2D,
             [Constant(c, "target"), Constant(c, "attachement"), Constant(c, "textarget")], [Value(c, "level")])
    case UniformBlockBinding => BlockBindingCalls(m, c)
    case DrawBuffers =>
      var b := Field(c, "buffers");
      if b.JArr? then Some([Call(drawBuffers, [List(seq(|b.items|, i requires 0 <= i < |b.items| => Named(b.items[i])))])]) else None
    case _ => Some([])
  }

  /** The eleven cases `ContextCalls` covers. */
  predicate CallsOnly(k: Kind)
  {
    k in {TexImage2D, TexImage3D, BindTexture, ShaderSource, AttachShader, BindAttribLocation, BindBufferBase,
          BindFramebuffer, FramebufferTexture2D, UniformBlockBinding, DrawBuffers}
  }

  /** The call a create case makes and the `_info` it stores. */
  function Creation(c: Json, k: Kind): (Call, Info)
    requires k.Creates()
  {
    match k
    case CreateTexture => (Call(createTexture, []), Typed(JStr("texture")))
    case CreateShader => (Call(createShader, [Constant(c, "type")]), Typed(Field(c, "type")))
    case CreateProgram => (Call(createProgram, []), Typed(JStr("Program")))
    case CreateBuffer => (Call(createBuffer, []), Typed(JStr("Buffer")))
    case CreateVertexArray => (Call(createVertexArray, []), Typed(JStr("Vertex Array Object")).(bindings := Some([])))
    case CreateFramebuffer => (Call(createFramebuffer, []), Typed(JStr("Framebuffer")))
  }

  /**
   * A create case: the object is created first, then stored with its `_info` in the
   * resource the `resource` field names, which throws when there is none there.
   */
  function CreateStep(s: Scene, m: Machine, c: Json, k: Kind): (r: Outcome)
    requires m.Fits() && k.Creates()
    ensures Grows(m, r.state)
    ensures var i := ArrayIndex(Field(c, "resource"), |m.resources|);
      r.state.calls == m.calls + [Creation(c, k).0] && (r.threw <==> i.None?) &&
      (i.Some? ==> r.state.resources[i.value].ptr == NewObject(s.gpu, m.calls) && r.state.resources[i.value].info == Creation(c, k).1 &&
                   r.state.resources[i.value].uid == m.resources[i.value].uid) &&
      forall j | 0 <= j < |m.resources| && Some(j) != i :: r.state.resources[j] == m.resources[j]
  {
    var (call, info) := Creation(c, k);
    var created := m.(calls := m.calls + [call]);
    var i := ArrayIndex(Field(c, "resource"), |m.resources|);
    if i.None? then Outcome(created, true)
    else Outcome(created.(resources := m.resources[i.value := m.resources[i.value].(ptr := NewObject(s.gpu, m.calls), info := info)]), false)
  }

  /**
   * `compileShader`: the shader is compiled and its message becomes "compiled" or
   * its log. Throws when there is no shader resource or its object is null.
   */
  function CompileStep(s: Scene, m: Machine, c: Json): (r: Outcome)
    requires m.Fits()
    ensures Grows(m, r.state)
    ensures var i := ArrayIndex(Field(c, "shader"), |m.resources|);
      (r.threw <==> i.None? || m.resources[i.value].ptr.None?) &&
      (r.threw ==> r.state == m) &&
      (!r.threw ==> var a := m.resources[i.value].ptr.value; var res := m.resources[i.value];
        var message := if s.gpu.compiles(a) then JStr("compiled") else JStr(s.gpu.shaderLog(a));
        r.state == m.(calls := m.calls + [Call(compileShader, [Object(Some(a))])],
                      resources := m.resources[i.value := res.(info := res.info.(message := Some(message)))]))
  {
    var i := ArrayIndex(Field(c, "shader"), |m.resources|);
    if i.None? || m.resources[i.value].ptr.None? then Outcome(m, true)
    else
      var res := m.resources[i.value];
      var message := if Compiled(s.gpu, res.ptr) then JStr("compiled") else JStr(s.gpu.shaderLog(res.ptr.value));
      Outcome(m.(calls := m.calls + [Call(compileShader, [Object(res.ptr)])],
                 resources := m.resources[i.value := res.(info := res.info.(message := Some(message)))]), false)
  }

  // ---------------------------------------------------------------------------
  // Linking: what a linked program's `_info` records.
  // ---------------------------------------------------------------------------

  /** The block member active uniform `t` contributes. */
  function Member(g: Gpu, h: Handle, t: nat): BlockMember
    requires t < |g.activeUniforms(h)| && g.activeUniforms(h)[t].Some?
  {
    var u := g.activeUniforms(h)[t].value;
    BlockMember(u.name, u.typeName, u.size, g.uniformOffset(h, t))
  }

  /** The loose uniform active uniform `t` contributes, with the location the context gives its name. */
  function Loose(g: Gpu, h: Handle, t: nat): UniformInfo
    requires t < |g.activeUniforms(h)| && g.activeUniforms(h)[t].Some?
  {
    var u := g.activeUniforms(h)[t].value;
    UniformInfo(u.name, u.typeName, u.size, g.uniformLocation(h, u.name))
  }

  /** Active uniform `t` belongs to a uniform block (its block index is above -1). */
  predicate InBlock(g: Gpu, h: Handle, t: nat)
    requires t < |g.activeUniforms(h)|
  {
    g.activeUniforms(h)[t].Some? && g.uniformBlockIndex(h, t) > -1
  }

  /**
   * `find` the block with index `b`, pushing a new one (named and sized by the
   * context) when there is none, and push the member into it.
   */
  function JoinBlock(g: Gpu, h: Handle, blocks: seq<Block>, b: int, member: BlockMember): seq<Block>
  {
    var k := FindIndex(blocks, (x: Block) => x.index == b);
    if k.None? then blocks + [Block(b, g.blockName(h, b), g.blockSize(h, b), [member])]
    else blocks[k.value := blocks[k.value].(uniforms := blocks[k.value].uniforms + [member])]
  }

  /** One turn of the uniform loop: uniform `t` joins its block or the loose uniforms; an inactive index adds nothing. */
  function AddUniform(g: Gpu, h: Handle, t: nat, blocks: seq<Block>, loose: seq<UniformInfo>): (seq<Block>, seq<UniformInfo>)
    requires t < |g.activeUniforms(h)|
  {
    if g.activeUniforms(h)[t].None? then (blocks, loose)
    else if InBlock(g, h, t) then (JoinBlock(g, h, blocks, g.uniformBlockIndex(h, t), Member(g, h, t)), loose)
    else (blocks, loose + [Loose(g, h, t)])
  }

  /** The blocks and loose uniforms after the first `n` turns of the uniform loop. */
  function LinkUniforms(g: Gpu, h: Handle, n: nat): (seq<Block>, seq<UniformInfo>)
    requires n <= |g.activeUniforms(h)|
  {
    if n == 0 then ([], [])
    else
      var (blocks, loose) := LinkUniforms(g, h, n - 1);
      AddUniform(g, h, n - 1, blocks, loose)
  }

  /** The attributes after the first `n` turns of the attribute loop: each active one with its location. */
  function LinkAttributes(g: Gpu, h: Handle, n: nat): (r: seq<AttributeInfo>)
    requires n <= |g.activeAttributes(h)|
    ensures |r| <= n
    ensures forall i | 0 <= i < |r| :: r[i].location == g.attribLocation(h, r[i].name)
    ensures forall i | 0 <= i < |r| :: exists t | 0 <= t < n :: g.activeAttributes(h)[t].Some? && g.activeAttributes(h)[t].value.name == r[i].name
  {
    if n == 0 then []
    else
      var a := g.activeAttributes(h)[n - 1];
      LinkAttributes(g, h, n - 1) +
        if a.Some? then [AttributeInfo(a.value.name, a.value.typeName, a.value.size, g.attribLocation(h, a.value.name))] else []
  }

  /** The `_info` of a program that linked: message "linked", its blocks, loose uniforms and attributes. */
  function LinkedInfo(g: Gpu, h: Handle, info: Info): Info
  {
    var (blocks, loose) := LinkUniforms(g, h, |g.activeUniforms(h)|);
    info.(message := Some(JStr("linked")), blocks := Some(blocks), uniforms := Some(loose),
          attributes := Some(LinkAttributes(g, h, |g.activeAttributes(h)|)))
  }

  /** The `ViewBlock` binding a linked program receives: block 0, when it has such a block. */
  function ViewBlockBinding(g: Gpu, a: Handle): seq<Call>
  {
    var b := g.viewBlockIndex(a);
    if b < 4294967295 then [Call(uniformBlockBinding, [Object(Some(a)), Num(b), Num(0)])] else []
  }

  /**
   * `linkProgram` as the source writes it: linked and validated; a program that
   * linked gets its view block bound and its uniforms and attributes recorded, and
   * for one that did not, the program object is handed to `getShaderInfoLog`,
   * whose parameter is a shader: the context rejects it with a TypeError. A
   * missing resource or a null object throws before any call.
   */
  function LinkStepAsWritten(s: Scene, m: Machine, c: Json): (r: Outcome)
    requires m.Fits()
    ensures Grows(m, r.state)
    ensures var i := ArrayIndex(Field(c, "program"), |m.resources|);
      r.threw <==> i.None? || !Linked(s.gpu, m.resources[i.value].ptr)
  {
    var i := ArrayIndex(Field(c, "program"), |m.resources|);
    if i.None? || m.resources[i.value].ptr.None? then Outcome(m, true)
    else
      var a := m.resources[i.value].ptr;
      var m1 := m.(calls := m.calls + [Call(linkProgram, [Object(a)]), Call(validateProgram, [Object(a)])]);
      if Linked(s.gpu, a) then Outcome(LinkedState(s.gpu, m1, i.value), false)
      else Outcome(m1, true)
  }

  /**
   * `linkProgram` as intended: a program that did not link gets its program log as
   * message, and nothing else changes. A missing resource or a null object throws
   * before any call.
   */
  function LinkStep(s: Scene, m: Machine, c: Json): (r: Outcome)
    requires m.Fits()
    ensures Grows(m, r.state)
    ensures var i := ArrayIndex(Field(c, "program"), |m.resources|);
      (r.threw <==> i.None? || m.resources[i.value].ptr.None?) &&
      (r.threw ==> r.state == m)
    ensures var i := ArrayIndex(Field(c, "program"), |m.resources|);
      !r.threw ==>
        var a := m.resources[i.value].ptr; var info := r.state.resources[i.value].info;
        var linking := m.calls + [Call(linkProgram, [Object(a)]), Call(validateProgram, [Object(a)])];
        r.state == m.(calls := r.state.calls, resources := r.state.resources) &&
        |linking| <= |r.state.calls| && r.state.calls[..|linking|] == linking &&
        (forall j | 0 <= j < |m.resources| && j != i.value :: r.state.resources[j] == m.resources[j]) &&
        r.state.resources[i.value] == m.resources[i.value].(info := info) &&
        (Linked(s.gpu, a) ==> info.message == Some(JStr("linked")) && info.blocks.Some? && info.uniforms.Some? && info.attributes.Some? &&
                              Grouped(s.gpu, a.value, |s.gpu.activeUniforms(a.value)|, info.blocks.value, info.uniforms.value)) &&
        (!Linked(s.gpu, a) ==> info == m.resources[i.value].info.(message := Some(JStr(s.gpu.programLog(a.value)))) && r.state.calls == linking)
  {
    var i := ArrayIndex(Field(c, "program"), |m.resources|);
    if i.None? || m.resources[i.value].ptr.None? then Outcome(m, true) else Outcome(LinkAt(s.gpu, m, i.value), false)
  }

  /** Linking and validating the program at `i`, then recording what became of it. */
  function LinkAt(g: Gpu, m: Machine, i: nat): (r: Machine)
    requires m.Fits() && i < |m.resources| && m.resources[i].ptr.Some?
    ensures Grows(m, r)
  {
    var a := m.resources[i].ptr;
    var m1 := m.(calls := m.calls + [Call(linkProgram, [Object(a)]), Call(validateProgram, [Object(a)])]);
    if Linked(g, a) then LinkedState(g, m1, i)
    else m1.(resources := m1.resources[i := m.resources[i].(info := m.resources[i].info.(message := Some(JStr(g.programLog(a.value)))))])
  }

  /** A program that linked: its view block bound, its uniforms grouped and its attributes listed in its info. */
  function LinkedState(g: Gpu, m: Machine, i: nat): (r: Machine)
    requires m.Fits() && i < |m.resources| && Linked(g, m.resources[i].ptr)
    ensures Grows(m, r)
    ensures r == m.(calls := r.calls, resources := m.resources[i := m.resources[i].(info := r.resources[i].info)])
    ensures var info := r.resources[i].info; var h := m.resources[i].ptr.value;
      r.calls == m.calls + ViewBlockBinding(g, h) &&
      info.message == Some(JStr("linked")) && info.blocks.Some? && info.uniforms.Some? && info.attributes.Some? &&
      Grouped(g, h, |g.activeUniforms(h)|, info.blocks.value, info.uniforms.value)
  {
    var res := m.resources[i];
    var h := res.ptr.value;
    LinkUniformsGrouped(g, h, |g.activeUniforms(h)|);
    m.(calls := m.calls + ViewBlockBinding(g, h), resources := m.resources[i := res.(info := LinkedInfo(g, h, res.info))])
  }

  // ---------------------------------------------------------------------------
  // Bindings, uniforms and buffers.
  // ---------------------------------------------------------------------------

  /** The field each bind case reads its resource from. */
  function BindField(k: Kind): string
  {
    match k
    case UseProgram => "program"
    case BindVertexArray => "vertex_array"
    case _ => "buffer"
  }

  /**
   * `useProgram`, `bindVertexArray` and `bindBuffer`: a field `>= 0` binds the
   * resource there (throwing when there is none) and a negative one binds null;
   * the model then remembers what is bound.
   */
  function BindStep(m: Machine, c: Json, k: Kind): (r: Outcome)
    requires m.Fits() && (k == UseProgram || k == BindVertexArray || k == BindBuffer)
    ensures Grows(m, r.state)
    ensures var j := Field(c, BindField(k));
      var bound := if AtLeast(j, 0) then ArrayIndex(j, |m.resources|) else None;
      (r.threw <==> AtLeast(j, 0) && bound.None?) &&
      (!r.threw ==>
        |r.state.calls| == |m.calls| + 1 && r.state.calls[..|m.calls|] == m.calls &&
        (var o := Object(if bound.Some? then m.resources[bound.value].ptr else None);
         r.state.calls[|m.calls|] == (if k == UseProgram then Call(useProgram, [o])
                                      else if k == BindVertexArray then Call(bindVertexArray, [o])
                                      else Call(bindBuffer, [Constant(c, "target"), o]))) &&
        r.state.resources == m.resources && r.state.console == m.console &&
        (k == UseProgram ==> r.state.program == bound && r.state.vao == m.vao && r.state.boundBuffers == m.boundBuffers) &&
        (k == BindVertexArray ==> r.state.vao == bound && r.state.program == m.program && r.state.boundBuffers == m.boundBuffers) &&
        (k == BindBuffer ==> BoundAt(r.state, Field(c, "target")) == bound && r.state.program == m.program && r.state.vao == m.vao &&
                             forall t | t in m.boundBuffers && t != Field(c, "target") :: BoundAt(r.state, t) == BoundAt(m, t)))
  {
    var j := Field(c, BindField(k));
    var sel := Select(m, j, AtLeast(j, 0));
    if sel.Missing? then Outcome(m, true)
    else
      var bound := Object(ObjectOf(m, sel));
      match k
      case UseProgram => Outcome(m.(calls := m.calls + [Call(useProgram, [bound])], program := sel.i), false)
      case BindVertexArray => Outcome(m.(calls := m.calls + [Call(bindVertexArray, [bound])], vao := sel.i), false)
      case BindBuffer =>
        Outcome(m.(calls := m.calls + [Call(bindBuffer, [Constant(c, "target"), bound])],
                   boundBuffers := m.boundBuffers[Field(c, "target") := sel.i]), false)
  }

  /** The `uniform*v` kind a dtype selects. */
  function VectorKind(dtype: Json): Option<UniformKind>
  {
    if dtype == JStr("int32") then Some(iv)
    else if dtype == JStr("uint32") then Some(uiv)
    else if dtype == JStr("float32") then Some(fv)
    else None
  }

  /**
   * Whether `uniform` or `uniformMatrix` makes a call once the uniform is found:
   * a matrix needs the last two shape entries to be sizes 2 to 4, a vector its last
   * entry a size 1 to 4 and a dtype of int32, uint32 or float32.
   */
  predicate UploadDue(c: Json, shape: Json, matrix: bool)
  {
    if matrix then
      var columns := Dim(FromEnd(shape, 2));
      var rows := Dim(FromEnd(shape, 1));
      columns.Some? && rows.Some? && columns.value >= 2 && rows.value >= 2
    else Dim(FromEnd(shape, 1)).Some? && VectorKind(Field(Field(c, "buffer_metadata"), "dtype")).Some?
  }

  /**
   * The upload of `uniform` or `uniformMatrix` once the uniform is found, at its
   * location, of the array the metadata's `index` names: `uniformMatrix{C}x{R}fv`
   * sized by the last two entries of the shape, or `uniform{N}{i,ui,f}v` sized by
   * its last entry and typed by the dtype; nothing for a size or dtype outside the
   * cases. None when the metadata or its shape is null or undefined, or when a call
   * is due and no array is at `index` (the context rejects undefined data).
   */
  function Upload(s: Scene, c: Json, location: Option<Location>, matrix: bool): (r: Option<seq<Call>>)
    ensures var shape := Meta(c, "shape");
      shape.Failure? || shape.value.JNull? || shape.value.JUndefined? ==> r.None?
    ensures var shape := Meta(c, "shape");
      var values := ViewAt(s.views, Field(Field(c, "buffer_metadata"), "index"));
      shape.Success? && !shape.value.JNull? && !shape.value.JUndefined? ==>
        (!UploadDue(c, shape.value, matrix) ==> r == Some([])) &&
        (UploadDue(c, shape.value, matrix) ==> (r.None? <==> !values.Data?))
    ensures r.Some? && r.value != [] ==>
      var shape := Meta(c, "shape").value; var bm := Field(c, "buffer_metadata");
      var values := ViewAt(s.views, Field(bm, "index"));
      |r.value| == 1 && values.Data? &&
      (matrix ==> r.value[0].fn.uniformMatrix? &&
                  LooselyEquals(FromEnd(shape, 2), r.value[0].fn.columns) && 2 <= r.value[0].fn.columns <= 4 &&
                  LooselyEquals(FromEnd(shape, 1), r.value[0].fn.rows) && 2 <= r.value[0].fn.rows <= 4 &&
                  r.value[0].args == [Loc(location), Flag(false), values]) &&
      (!matrix ==> r.value[0].fn.uniform? &&
                   LooselyEquals(FromEnd(shape, 1), r.value[0].fn.size) && 1 <= r.value[0].fn.size <= 4 &&
                   VectorKind(Field(bm, "dtype")) == Some(r.value[0].fn.kind) &&
                   r.value[0].args == [Loc(location), values])
  {
    var shape := Meta(c, "shape");
    if shape.Failure? || shape.value.JNull? || shape.value.JUndefined? then None
    else
      var bm := Field(c, "buffer_metadata");
      var values := ViewAt(s.views, Field(bm, "index"));
      if matrix then
        var columns := Dim(FromEnd(shape.value, 2));
        var rows := Dim(FromEnd(shape.value, 1));
        if columns.Some? && rows.Some? && columns.value >= 2 && rows.value >= 2 then
          if values.Data? then Some([Call(uniformMatrix(columns.value, rows.value), [Loc(location), Flag(false), values])]) else None
        else Some([])
      else
        var size := Dim(FromEnd(shape.value, 1));
        var kind := VectorKind(Field(bm, "dtype"));
        if size.Some? && kind.Some? then
          if values.Data? then Some([Call(uniform(size.value, kind.value), [Loc(location), values])]) else None
        else Some([])
  }

  /**
   * `uniform` and `uniformMatrix`: skipped without a bound program or when the
   * program has no uniform of that name; throws when the program's info has no
   * `uniforms` list; otherwise the first uniform of that name is uploaded at its
   * location.
   */
  function UniformStep(s: Scene, m: Machine, c: Json, matrix: bool): (r: Outcome)
    requires m.Fits()
    ensures Grows(m, r.state)
    ensures r.state == m.(calls := r.state.calls) && |r.state.calls| <= |m.calls| + 1
    ensures m.program.None? ==> r == Outcome(m, false)
    ensures m.program.Some? && m.resources[m.program.value].info.uniforms.None? ==> r == Outcome(m, true)
    ensures m.program.Some? && m.resources[m.program.value].info.uniforms.Some? ==>
      var us := m.resources[m.program.value].info.uniforms.value;
      ((forall k | 0 <= k < |us| :: JStr(us[k].name) != Field(c, "name")) ==> r == Outcome(m, false)) &&
      forall k | 0 <= k < |us| && JStr(us[k].name) == Field(c, "name") && (forall k' | 0 <= k' < k :: JStr(us[k'].name) != Field(c, "name")) ::
        var up := Upload(s, c, us[k].location, matrix);
        (r.threw <==> up.None?) && (up.Some? ==> r.state.calls == m.calls + up.value)
  {
    if m.program.None? then Outcome(m, false)
    else
      var uniforms := m.resources[m.program.value].info.uniforms;
      if uniforms.None? then Outcome(m, true)
      else
        var u := FindUniform(uniforms.value, Field(c, "name"));
        if u.None? then Outcome(m, false)
        else
          var cs := Upload(s, c, u.value.location, matrix);
          if cs.None? then Outcome(m, true) else Outcome(m.(calls := m.calls + cs.value), false)
  }

  /** The `_info` `bufferData` gives the buffer bound at `target` when asked to update it. */
  function BufferInfo(size: Json, target: Json): Info
  {
    Typed(JStr("Buffer")).(size := Some(size), target := Some(target))
  }

  /**
   * `bufferData`: the array (or null) is given to the target; with `update_info`,
   * the buffer bound there records its new size (as the context reports it, or
   * "Undefined" without data) and target.
   */
  function BufferDataStep(s: Scene, m: Machine, c: Json): (r: Outcome)
    requires m.Fits()
    ensures Grows(m, r.state)
    ensures var target := Field(c, "target"); var n := BoundAt(m, target);
      (r.threw <==> MetadataArray(s, c).None?) &&
      (!r.threw ==>
        r.state.calls == m.calls + [Call(bufferData, [Constant(c, "target"), MetadataArray(s, c).value, Constant(c, "usage")])] &&
        r.state.boundBuffers == m.boundBuffers && r.state.console == m.console &&
        r.state.program == m.program && r.state.vao == m.vao &&
        (Truthy(Field(c, "update_info")) && n.Some? ==>
          r.state.resources == m.resources[n.value := r.state.resources[n.value]] &&
          r.state.resources[n.value].info ==
            BufferInfo(if HasOwn(c, "buffer_metadata") then JNum(s.gpu.bufferSize(target) as real) else JStr("Undefined"), target)) &&
        (!Truthy(Field(c, "update_info")) || n.None? ==> r.state.resources == m.resources))
  {
    var target := Field(c, "target");
    var data := MetadataArray(s, c);
    if data.None? then Outcome(m, true)
    else
      var called := m.(calls := m.calls + [Call(bufferData, [Constant(c, "target"), data.value, Constant(c, "usage")])]);
      var n := BoundAt(m, target);
      if Truthy(Field(c, "update_info")) && n.Some? then
        var size := if HasOwn(c, "buffer_metadata") then JNum(s.gpu.bufferSize(target) as real) else JStr("Undefined");
        Outcome(called.(resources := m.resources[n.value := m.resources[n.value].(info := BufferInfo(size, target))]), false)
      else Outcome(called, false)
  }

  /** The calls that give a new uniform buffer the size of its block. */
  function UniformBufferCalls(a: Option<Handle>, size: int, usage: Json): seq<Call>
  {
    [Call(bindBuffer, [Enum(UNIFORM_BUFFER), Object(a)]),
     Call(bufferData, [Enum(UNIFORM_BUFFER), Num(size), Named(usage)]),
     Call(bindBuffer, [Enum(UNIFORM_BUFFER), Object(None)])]
  }

  /**
   * `createUniformBuffer`: a buffer is created; when the program has a block named
   * `block_name` it is sized for that block (leaving UNIFORM_BUFFER unbound) and
   * records the block; then it is stored in the resource `buffer` names. Throws
   * when the program is missing or has no block list, and, after all that, when
   * there is no resource to store the buffer in.
   */
  function CreateUniformBufferStep(s: Scene, m: Machine, c: Json): (r: Outcome)
    requires m.Fits()
    ensures Grows(m, r.state)
    ensures var p := ArrayIndex(Field(c, "program"), |m.resources|);
      var b := ArrayIndex(Field(c, "buffer"), |m.resources|);
      |m.calls| < |r.state.calls| && r.state.calls[|m.calls|] == Call(createBuffer, []) &&
      (r.threw <==> p.None? || m.resources[p.value].info.blocks.None? || b.None?) &&
      (!r.threw ==>
        var block := FindBlock(m.resources[p.value].info.blocks.value, Field(c, "block_name"));
        var info := r.state.resources[b.value].info;
        r.state.resources[b.value].ptr == NewObject(s.gpu, m.calls) &&
        (block.Some? ==> info.uniformBlock == block && info.size == Some(JNum(block.value.size as real)) &&
                         BoundAt(r.state, JStr("UNIFORM_BUFFER")).None? &&
                         r.state.calls == m.calls + [Call(createBuffer, [])] + UniformBufferCalls(r.state.resources[b.value].ptr, block.value.size, Field(c, "usage"))) &&
        (block.None? ==> info == Typed(JStr("Buffer")) && r.state.calls == m.calls + [Call(createBuffer, [])]))
  {
    var a := NewObject(s.gpu, m.calls);
    var created := m.(calls := m.calls + [Call(createBuffer, [])]);
    var p := ArrayIndex(Field(c, "program"), |m.resources|);
    if p.None? || m.resources[p.value].info.blocks.None? then Outcome(created, true)
    else
      var n := FindBlock(m.resources[p.value].info.blocks.value, Field(c, "block_name"));
      var sized := if n.Some? then created.(calls := created.calls + UniformBufferCalls(a, n.value.size, Field(c, "usage")),
                                            boundBuffers := m.boundBuffers[JStr("UNIFORM_BUFFER") := None])
                   else created;
      var info := if n.Some? then Typed(JStr("Buffer")).(size := Some(JNum(n.value.size as real)), target := Some(JStr("UNIFORM_BUFFER")),
                                                         uniformBlock := n)
                  else Typed(JStr("Buffer"));
      var r := ArrayIndex(Field(c, "buffer"), |m.resources|);
      if r.None? then Outcome(sized, true)
      else Outcome(sized.(resources := m.resources[r.value := m.resources[r.value].(ptr := a, info := info)]), false)
  }

  /**
   * The destination offset of `bufferSubData` (the field itself) and of
   * `bufferSubDataStr` (the offset of the member of that name in the uniform block
   * of the buffer bound at the target, else 0). None when the bound buffer records
   * no uniform block.
   */
  function SubDataOffset(m: Machine, c: Json, named: bool): (r: Option<Arg>)
    requires m.Fits()
    ensures !named ==> r == Some(Value(c, "dst_byte_offset"))
    ensures named ==> var e := BoundAt(m, Field(c, "target"));
      (e.None? ==> r == Some(Num(0))) &&
      (e.Some? ==> var block := m.resources[e.value].info.uniformBlock;
        (r.None? <==> block.None?) &&
        (block.Some? ==> var ms := block.value.uniforms;
          ((forall k | 0 <= k < |ms| :: JStr(ms[k].name) != Field(c, "dst_byte_offset")) ==> r == Some(Num(0))) &&
          forall k | 0 <= k < |ms| && JStr(ms[k].name) == Field(c, "dst_byte_offset") &&
                     (forall k' | 0 <= k' < k :: JStr(ms[k'].name) != Field(c, "dst_byte_offset")) :: r == Some(Num(ms[k].offset))))
  {
    if !named then Some(Value(c, "dst_byte_offset"))
    else
      var e := BoundAt(m, Field(c, "target"));
      if e.None? then Some(Num(0))
      else
        var block := m.resources[e.value].info.uniformBlock;
        if block.None? then None
        else
          var u := FindMember(block.value.uniforms, Field(c, "dst_byte_offset"));
          Some(Num(if u.Some? then u.value.offset else 0))
  }

  /**
   * `bufferSubData` and `bufferSubDataStr`. With metadata, the array `index` names
   * is written from `src_offset` on, and throws when no array is there; without,
   * `src_offset` itself is passed as the data, which the context rejects unless it
   * is a buffer.
   */
  function BufferSubDataStep(s: Scene, m: Machine, c: Json, named: bool): (r: Outcome)
    requires m.Fits()
    ensures Grows(m, r.state)
    ensures SubDataOffset(m, c, named).None? ==> r == Outcome(m, true)
    ensures r.threw ==> r.state == m
    ensures SubDataOffset(m, c, named).Some? && !HasOwn(c, "buffer_metadata") ==> (r.threw <==> !Field(c, "src_offset").JBytes?)
    ensures SubDataOffset(m, c, named).Some? && HasOwn(c, "buffer_metadata") ==>
      (r.threw <==> Meta(c, "index").Failure? || !ViewAt(s.views, Meta(c, "index").value).Data?)
    ensures !r.threw ==>
      |r.state.calls| == |m.calls| + 1 && r.state == m.(calls := r.state.calls) && r.state.calls[..|m.calls|] == m.calls &&
      r.state.calls[|m.calls|].fn == bufferSubData && |r.state.calls[|m.calls|].args| >= 3 &&
      SubDataOffset(m, c, named) == Some(r.state.calls[|m.calls|].args[1]) &&
      (HasOwn(c, "buffer_metadata") ==> r.state.calls[|m.calls|].args[2] == ViewAt(s.views, Meta(c, "index").value)) &&
      (!HasOwn(c, "buffer_metadata") ==> r.state.calls[|m.calls|].args[2] == Value(c, "src_offset"))
  {
    var offset := SubDataOffset(m, c, named);
    if offset.None? then Outcome(m, true)
    else
      var call := SubDataCall(s, c, offset.value);
      if call.None? then Outcome(m, true) else Outcome(m.(calls := m.calls + [call.value]), false)
  }

  /** The `bufferSubData` call at a destination offset; None when the context rejects its data. */
  function SubDataCall(s: Scene, c: Json, offset: Arg): Option<Call>
  {
    if HasOwn(c, "buffer_metadata") then
      var j := Meta(c, "index");
      if j.Failure? then None
      else
        var data := ViewAt(s.views, j.value);
        if !data.Data? then None else Some(Call(bufferSubData, [Constant(c, "target"), offset, data, Value(c, "src_offset")]))
    else if !Field(c, "src_offset").JBytes? then None
    else Some(Call(bufferSubData, [Constant(c, "target"), offset, Value(c, "src_offset")]))
  }

  // ---------------------------------------------------------------------------
  // Vertex attributes.
  // ---------------------------------------------------------------------------

  /** The location a vertex-attribute command resolves, and what it logged resolving it. */
  datatype Resolved = Resolved(location: real, console: seq<string>)

  /**
   * A numeric `index` is the location itself; a name is looked up among the bound
   * program's attributes (-1 when it has none of that name), and without a bound
   * program the console says so and the location is -1. None when the bound
   * program's info has no attribute list (the lookup throws).
   */
  function ResolveAttribute(m: Machine, index: Json): Option<Resolved>
    requires m.Fits()
  {
    if index.JNum? then Some(Resolved(index.n, []))
    else if m.program.Some? then
      var attributes := m.resources[m.program.value].info.attributes;
      if attributes.None? then None
      else
        var a := FindAttribute(attributes.value, index);
        Some(Resolved(if a.Some? then a.value.location as real else -1.0, []))
    else Some(Resolved(-1.0, ["a program must be bound to find the attribute"]))
  }

  /** `bindings.find(b => b.buffer_uid == uid)`, pushing a new entry when there is none, and the pointer pushed into it. */
  function AddBinding(bindings: seq<Binding>, uid: int, p: Pointer): seq<Binding>
  {
    var k := FindIndex(bindings, (b: Binding) => b.bufferUid == uid);
    if k.None? then bindings + [Binding(uid, [p])]
    else bindings[k.value := bindings[k.value].(attributes := bindings[k.value].attributes + [p])]
  }

  /**
   * After a pointer call: with a vertex array bound and a buffer bound to
   * ARRAY_BUFFER, the vertex array records the pointer under the buffer's uid;
   * throws when the vertex array's info has no binding list.
   */
  function RecordPointer(m: Machine, p: Pointer): (r: Outcome)
    requires m.Fits()
    ensures Grows(m, r.state)
    ensures r.state == m.(resources := r.state.resources)
    ensures forall j | 0 <= j < |m.resources| && Some(j) != m.vao :: r.state.resources[j] == m.resources[j]
  {
    var buffer := BoundAt(m, JStr("ARRAY_BUFFER"));
    if m.vao.None? || buffer.None? then Outcome(m, false)
    else
      var v := m.resources[m.vao.value];
      if v.info.bindings.None? then Outcome(m, true)
      else
        var bindings := AddBinding(v.info.bindings.value, m.resources[buffer.value].uid, p);
        Outcome(m.(resources := m.resources[m.vao.value := v.(info := v.info.(bindings := Some(bindings)))]), false)
  }

  /** `vertexAttrib[1234]fv` and `vertexAttribI4[u]iv`: the values come from the array at the metadata's `index`. */
  function AttribValueCalls(s: Scene, m: Machine, c: Json, k: Kind, a: real): (r: Outcome)
    requires m.Fits() && (k == VertexAttribFv || k == VertexAttribI4iv) && a >= 0.0
    ensures r.state.console == m.console && r.state.resources == m.resources
    ensures k == VertexAttribFv ==>
      var shape := Meta(c, "shape");
      var values := ViewAt(s.views, Field(Field(c, "buffer_metadata"), "index"));
      (r.threw <==> shape.Failure? || shape.value.JNull? || shape.value.JUndefined? || (Dim(Entry(shape.value, 0)).Some? && !values.Data?)) &&
      (r.threw ==> r.state == m) &&
      (!r.threw ==> var d := Dim(Entry(shape.value, 0));
        r.state == m.(calls := m.calls + if d.Some? then [Call(vertexAttribfv(d.value), [Val(JNum(a)), values])] else []))
    ensures k == VertexAttribI4iv ==>
      var dtype := Meta(c, "dtype");
      var values := ViewAt(s.views, Field(Field(c, "buffer_metadata"), "index"));
      (r.threw <==> dtype.Failure? || ((dtype.value == JStr("uint32") || dtype.value == JStr("int32")) && !values.Data?)) &&
      (r.threw ==> r.state == m) &&
      (!r.threw ==>
        r.state == m.(calls := m.calls + if dtype.value == JStr("uint32") then [Call(vertexAttribI4uiv, [Val(JNum(a)), values])]
                                         else if dtype.value == JStr("int32") then [Call(vertexAttribI4iv, [Val(JNum(a)), values])]
                                         else []))
  {
    var at := Val(JNum(a));
    var values := ViewAt(s.views, Field(Field(c, "buffer_metadata"), "index"));
    if k == VertexAttribFv then
      var shape := Meta(c, "shape");
      if shape.Failure? || shape.value.JNull? || shape.value.JUndefined? then Outcome(m, true)
      else
        var d := Dim(Entry(shape.value, 0));
        if d.None? then Outcome(m, false)
        else if !values.Data? then Outcome(m, true)
        else Outcome(m.(calls := m.calls + [Call(vertexAttribfv(d.value), [at, values])]), false)
    else
      var dtype := Meta(c, "dtype");
      if dtype.Failure? then Outcome(m, true)
      else if dtype.value != JStr("uint32") && dtype.value != JStr("int32") then Outcome(m, false)
      else if !values.Data? then Outcome(m, true)
      else Outcome(m.(calls := m.calls + [Call(if dtype.value == JStr("uint32") then vertexAttribI4uiv else vertexAttribI4iv, [at, values])]), false)
  }

  /**
   * The six vertex-attribute cases once location `a` is resolved and not negative.
   * `vertexAttrib[1234]fv` is sized by the metadata's first shape entry and
   * `vertexAttribI4[u]iv` typed by its dtype; each throws when the metadata (or the
   * shape) is null or undefined, or when it calls with no array at the metadata's
   * `index` (the context rejects undefined values).
   */
  function AttribCalls(s: Scene, m: Machine, c: Json, k: Kind, a: real): (r: Outcome)
    requires m.Fits() && k.OnAttribute() && a >= 0.0
    ensures Grows(m, r.state) && r.state.console == m.console
    ensures r.state.program == m.program && r.state.vao == m.vao && r.state.boundBuffers == m.boundBuffers
    ensures |r.state.calls| <= |m.calls| + 1
    ensures forall j | 0 <= j < |m.resources| && Some(j) != m.vao :: r.state.resources[j] == m.resources[j]
    ensures var at := Val(JNum(a));
      (k == EnableVertexAttribArray ==> r == Outcome(m.(calls := m.calls + [Call(enableVertexAttribArray, [at])]), false)) &&
      (k == DisableVertexAttribArray ==> r == Outcome(m.(calls := m.calls + [Call(disableVertexAttribArray, [at])]), false))
    ensures k == VertexAttribPointer ==>
      var call := Call(vertexAttribPointer, [Val(JNum(a)), Value(c, "size"), Constant(c, "type"), Value(c, "normalized"), Value(c, "stride"), Value(c, "offset")]);
      r.state.calls == m.calls + [call] &&
      r == RecordPointer(m.(calls := m.calls + [call]), Pointer("vertexAttribPointer", a, Field(c, "size"), Field(c, "type"), Some(Field(c, "normalized")),
                                                            Field(c, "stride"), Field(c, "offset")))
    ensures k == VertexAttribIPointer ==>
      var call := Call(vertexAttribIPointer, [Val(JNum(a)), Value(c, "size"), Constant(c, "type"), Value(c, "stride"), Value(c, "offset")]);
      r.state.calls == m.calls + [call] &&
      r == RecordPointer(m.(calls := m.calls + [call]), Pointer("vertexAttribIPointer", a, Field(c, "size"), Field(c, "type"), None, Field(c, "stride"), Field(c, "offset")))
    ensures k == VertexAttribFv || k == VertexAttribI4iv ==> r == AttribValueCalls(s, m, c, k, a)
  {
    var at := Val(JNum(a));
    match k
    case VertexAttribIPointer =>
      RecordPointer(m.(calls := m.calls + [Call(vertexAttribIPointer, [at, Value(c, "size"), Constant(c, "type"), Value(c, "stride"), Value(c, "offset")])]),
                    Pointer("vertexAttribIPointer", a, Field(c, "size"), Field(c, "type"), None, Field(c, "stride"), Field(c, "offset")))
    case VertexAttribPointer =>
      RecordPointer(m.(calls := m.calls + [Call(vertexAttribPointer, [at, Value(c, "size"), Constant(c, "type"), Value(c, "normalized"),
                                                                       Value(c, "stride"), Value(c, "offset")])]),
                    Pointer("vertexAttribPointer", a, Field(c, "size"), Field(c, "type"), Some(Field(c, "normalized")), Field(c, "stride"),
                            Field(c, "offset")))
    case EnableVertexAttribArray => Outcome(m.(calls := m.calls + [Call(enableVertexAttribArray, [at])]), false)
    case DisableVertexAttribArray => Outcome(m.(calls := m.calls + [Call(disableVertexAttribArray, [at])]), false)
    case VertexAttribFv => AttribValueCalls(s, m, c, k, a)
    case VertexAttribI4iv => AttribValueCalls(s, m, c, k, a)
  }

  /**
   * The vertex-attribute cases: the location is resolved, and a negative one is
   * reported on the console instead of being used.
   */
  function VertexAttribStep(s: Scene, m: Machine, c: Json, k: Kind): (r: Outcome)
    requires m.Fits() && k.OnAttribute()
    ensures Grows(m, r.state)
    ensures r.state.program == m.program && r.state.vao == m.vao && r.state.boundBuffers == m.boundBuffers
    ensures |r.state.calls| <= |m.calls| + 1
    ensures forall j | 0 <= j < |m.resources| && Some(j) != m.vao :: r.state.resources[j] == m.resources[j]
    ensures var resolved := ResolveAttribute(m, Field(c, "index"));
      (resolved.None? ==> r == Outcome(m, true)) &&
      (resolved.Some? && resolved.value.location < 0.0 ==>
        r == Outcome(m.(console := m.console + resolved.value.console + ["attribute " + Stringify(Field(c, "index")) + " location not found"]), false)) &&
      (resolved.Some? && resolved.value.location >= 0.0 ==>
        r == AttribCalls(s, m.(console := m.console + resolved.value.console), c, k, resolved.value.location))
  {
    var resolved := ResolveAttribute(m, Field(c, "index"));
    if resolved.None? then Outcome(m, true)
    else AttribResolved(s, m, c, k, resolved.value)
  }

  /** A resolved attribute location: its console lines, then a report when it is negative, else the attribute calls. */
  function AttribResolved(s: Scene, m: Machine, c: Json, k: Kind, resolved: Resolved): (r: Outcome)
    requires m.Fits() && k.OnAttribute()
    ensures Grows(m, r.state)
    ensures r.state.program == m.program && r.state.vao == m.vao && r.state.boundBuffers == m.boundBuffers
    ensures |r.state.calls| <= |m.calls| + 1
    ensures forall j | 0 <= j < |m.resources| && Some(j) != m.vao :: r.state.resources[j] == m.resources[j]
    ensures resolved.location < 0.0 ==>
      r == Outcome(m.(console := m.console + resolved.console + ["attribute " + Stringify(Field(c, "index")) + " location not found"]), false)
    ensures resolved.location >= 0.0 ==> r == AttribCalls(s, m.(console := m.console + resolved.console), c, k, resolved.location)
  {
    var m1 := m.(console := m.console + resolved.console);
    if resolved.location < 0.0 then Outcome(m1.(console := m1.console + ["attribute " + Stringify(Field(c, "index")) + " location not found"]), false)
    else AttribCalls(s, m1, c, k, resolved.location)
  }

  // ---------------------------------------------------------------------------
  // The replay.
  // ---------------------------------------------------------------------------

  /** A command whose `cmd` is a case label, run against the context. */
  function Dispatch(s: Scene, m: Machine, c: Json, k: Kind): (r: Outcome)
    requires m.Fits()
    ensures Grows(m, r.state)
  {
    if FixedCall(c, k).Some? || CallsOnly(k) then ContextStep(s, m, c, k)
    else if k.Creates() then CreateStep(s, m, c, k)
    else if k.OnAttribute() then VertexAttribStep(s, m, c, k)
    else if k.OnProgram() then ProgramStep(s, m, c, k)
    else if k.Binds() then BindingStep(s, m, c, k)
    else BufferStep(s, m, c, k)
  }

  /** The cases that only make context calls: a fixed argument list, or calls on looked-up resources. */
  function ContextStep(s: Scene, m: Machine, c: Json, k: Kind): (r: Outcome)
    requires m.Fits()
    ensures r.state == m.(calls := r.state.calls) && m.calls <= r.state.calls
    ensures FixedCall(c, k).Some? ==> r == Outcome(m.(calls := m.calls + [FixedCall(c, k).value]), false)
  {
    var fixed := FixedCall(c, k);
    if fixed.Some? then Outcome(m.(calls := m.calls + [fixed.value]), false)
    else
      var cs := ContextCalls(s, m, c, k);
      if cs.None? then Outcome(m, true) else Outcome(m.(calls := m.calls + cs.value), false)
  }

  /** `compileShader` and `linkProgram`. */
  function ProgramStep(s: Scene, m: Machine, c: Json, k: Kind): (r: Outcome)
    requires m.Fits() && k.OnProgram()
    ensures Grows(m, r.state)
  {
    if k == CompileShader then CompileStep(s, m, c) else LinkStep(s, m, c)
  }

  /** The bind cases, `uniform` and `uniformMatrix`. */
  function BindingStep(s: Scene, m: Machine, c: Json, k: Kind): (r: Outcome)
    requires m.Fits() && k.Binds()
    ensures Grows(m, r.state)
  {
    if k == Uniform || k == UniformMatrix then UniformStep(s, m, c, k == UniformMatrix) else BindStep(m, c, k)
  }

  /** The buffer cases; the remaining labels (the draw calls among them are fixed calls) change nothing here. */
  function BufferStep(s: Scene, m: Machine, c: Json, k: Kind): (r: Outcome)
    requires m.Fits()
    ensures Grows(m, r.state)
  {
    if k == BufferData then BufferDataStep(s, m, c)
    else if k == CreateUniformBuffer then CreateUniformBufferStep(s, m, c)
    else if k == BufferSubData || k == BufferSubDataStr then BufferSubDataStep(s, m, c, k == BufferSubDataStr)
    else Outcome(m, false)
  }

  /** The six groups of cases `Dispatch` tells apart, in the order it tries them. */
  lemma DispatchGroups(s: Scene, m: Machine, c: Json, k: Kind)
    requires m.Fits()
    ensures Dispatch(s, m, c, k) ==
      if FixedCall(c, k).Some? || CallsOnly(k) then ContextStep(s, m, c, k)
      else if k.Creates() then CreateStep(s, m, c, k)
      else if k.OnAttribute() then VertexAttribStep(s, m, c, k)
      else if k.OnProgram() then ProgramStep(s, m, c, k)
      else if k.Binds() then BindingStep(s, m, c, k)
      else BufferStep(s, m, c, k)
  {
  }

  /**
   * `execute_command`: `switch (t.cmd)` throws on a null or undefined command; a
   * `cmd` that is no case label is skipped.
   */
  function Step(s: Scene, m: Machine, c: Json): (r: Outcome)
    requires m.Fits()
    ensures Grows(m, r.state)
  {
    if Prop(c, "cmd").Failure? then Outcome(m, true)
    else
      var k := KindOf(c);
      if k.None? then Outcome(m, false) else Dispatch(s, m, c, k.value)
  }

  /** The `forEach` of `execute_commands`: the commands in order; the first that throws ends the batch. */
  function Run(s: Scene, m: Machine, commands: seq<Json>): (r: Outcome)
    requires m.Fits()
    ensures r.state.Fits()
    decreases |commands|, 1
  {
    if |commands| == 0 then Outcome(m, false) else RunLast(s, m, commands)
  }

  /** A non-empty batch: its front runs first, then its last command unless the front threw. */
  function RunLast(s: Scene, m: Machine, commands: seq<Json>): (r: Outcome)
    requires m.Fits() && |commands| > 0
    ensures r.state.Fits()
    decreases |commands|, 0
  {
    var o := Run(s, m, commands[..|commands| - 1]);
    if o.threw then o else Step(s, o.state, commands[|commands| - 1])
  }

  /**
   * A batch only adds: it keeps the registry's length and extends the calls and
   * the console, whether or not it throws.
   */
  lemma {:induction false} RunGrows(s: Scene, m: Machine, commands: seq<Json>)
    requires m.Fits()
    ensures Grows(m, Run(s, m, commands).state)
    decreases |commands|
  {
    if |commands| > 0 {
      RunGrows(s, m, commands[..|commands| - 1]);
    }
  }

  /** A batch that has not thrown goes on with the next command. */
  lemma RunExtends(s: Scene, m: Machine, front: seq<Json>, c: Json)
    requires m.Fits() && !Run(s, m, front).threw
    ensures Run(s, m, front + [c]) == Step(s, Run(s, m, front).state, c)
  {
    var batch := front + [c];
    assert batch[..|batch| - 1] == front;
  }

  /** `RunExtends` for the first `i + 1` commands of a list. */
  lemma RunPrefixExtends(s: Scene, m: Machine, commands: seq<Json>, i: nat)
    requires m.Fits() && i < |commands| && !Run(s, m, commands[..i]).threw
    ensures Run(s, m, commands[..i + 1]) == Step(s, Run(s, m, commands[..i]).state, commands[i])
  {
    Viewer.TakeNext(commands, i);
    RunExtends(s, m, commands[..i], commands[i]);
  }

  /** Once a command has thrown, the commands after it change nothing. */
  lemma {:induction false} RunStopsAtThrow(s: Scene, m: Machine, a: seq<Json>, b: seq<Json>)
    requires m.Fits() && Run(s, m, a).threw
    ensures Run(s, m, a + b) == Run(s, m, a)
    decreases |b|
  {
    if |b| == 0 {
      assert a + b == a;
    } else {
      var b' := b[..|b| - 1];
      assert (a + b)[..|a + b| - 1] == a + b';
      RunStopsAtThrow(s, m, a, b');
    }
  }

  // ---------------------------------------------------------------------------
  // Properties of the cases.
  // ---------------------------------------------------------------------------

  /**
   * `enable` and `disable` hold each of the ten capabilities exactly when its flag
   * is set: `depth_test` selects DEPTH_TEST (not the DEPTH of the depth function)
   * and `cull_face` selects CULL_FACE.
   */
  lemma CapsOfFlags(c: Json)
    ensures forall i | 0 <= i < |CapsTable| :: CapsTable[i].1 in Caps(c) <==> Truthy(Field(c, CapsTable[i].0))
    ensures DEPTH_TEST in Caps(c) <==> Truthy(Field(c, "depth_test"))
    ensures CULL_FACE in Caps(c) <==> Truthy(Field(c, "cull_face"))
    ensures DEPTH !in Caps(c)
  {
    assert Viewer.DistinctEnums(CapsTable);
    Viewer.SelectedExactly(c, CapsTable);
    assert CapsTable[1] == ("depth_test", DEPTH_TEST);
    assert CapsTable[9] == ("cull_face", CULL_FACE);
    Viewer.SetFlagsSelect(c, CapsTable, DEPTH);
  }

  // ---------------------------------------------------------------------------
  // What a vertex array records: its pointers grouped by buffer.
  // ---------------------------------------------------------------------------

  /** No two groups of a binding list name the same buffer. */
  predicate DistinctUids(bindings: seq<Binding>)
  {
    forall i, j | 0 <= i < j < |bindings| :: bindings[i].bufferUid != bindings[j].bufferUid
  }

  /** Every pointer recorded under buffer `uid`, group by group in order. */
  function PointersOf(bindings: seq<Binding>, uid: int): seq<Pointer>
  {
    if |bindings| == 0 then []
    else
      var last := bindings[|bindings| - 1];
      PointersOf(bindings[..|bindings| - 1], uid) + if last.bufferUid == uid then last.attributes else []
  }

  /** A list with no group for `uid` records no pointer under it. */
  lemma {:induction false} PointersOfAbsent(bindings: seq<Binding>, uid: int)
    requires forall i | 0 <= i < |bindings| :: bindings[i].bufferUid != uid
    ensures PointersOf(bindings, uid) == []
    decreases |bindings|
  {
    if |bindings| > 0 {
      PointersOfAbsent(bindings[..|bindings| - 1], uid);
    }
  }

  /** With distinct uids, the pointers under a group's uid are that group's. */
  lemma {:induction false} PointersOfGroup(bindings: seq<Binding>, k: nat)
    requires DistinctUids(bindings) && k < |bindings|
    ensures PointersOf(bindings, bindings[k].bufferUid) == bindings[k].attributes
    decreases |bindings|
  {
    var front := bindings[..|bindings| - 1];
    if k == |bindings| - 1 {
      PointersOfAbsent(front, bindings[k].bufferUid);
    } else {
      PointersOfGroup(front, k);
    }
  }

  /** Replacing a group whose uid is not `uid` by another such group leaves the pointers under `uid` alone. */
  lemma {:induction false} PointersOfOther(bindings: seq<Binding>, k: nat, b: Binding, uid: int)
    requires k < |bindings| && bindings[k].bufferUid != uid && b.bufferUid != uid
    ensures PointersOf(bindings[k := b], uid) == PointersOf(bindings, uid)
    decreases |bindings|
  {
    var front := bindings[..|bindings| - 1];
    if k < |bindings| - 1 {
      assert bindings[k := b][..|bindings| - 1] == front[k := b];
      PointersOfOther(front, k, b, uid);
    } else {
      assert bindings[k := b][..|bindings| - 1] == front;
    }
  }

  /**
   * `AddBinding` keeps one group per buffer, appends the pointer to the pointers
   * recorded under its buffer, and leaves every other buffer's pointers alone.
   */
  lemma AddBindingRecords(bindings: seq<Binding>, uid: int, p: Pointer)
    requires DistinctUids(bindings)
    ensures var r := AddBinding(bindings, uid, p);
      DistinctUids(r) && |bindings| <= |r| <= |bindings| + 1 &&
      PointersOf(r, uid) == PointersOf(bindings, uid) + [p] &&
      forall v | v != uid :: PointersOf(r, v) == PointersOf(bindings, v)
  {
    var r := AddBinding(bindings, uid, p);
    var k := FindIndex(bindings, (b: Binding) => b.bufferUid == uid);
    if k.None? {
      assert r[..|r| - 1] == bindings;
      PointersOfAbsent(bindings, uid);
    } else {
      var i := k.value;
      PointersOfGroup(bindings, i);
      PointersOfGroup(r, i);
      forall v | v != uid
        ensures PointersOf(r, v) == PointersOf(bindings, v)
      {
        PointersOfOther(bindings, i, r[i], v);
      }
    }
  }

  // ---------------------------------------------------------------------------
  // What a linked program records: its uniforms grouped by block.
  // ---------------------------------------------------------------------------

  /** The members active uniforms `0..n-1` contribute to block `b`, in index order. */
  function MembersIn(g: Gpu, h: Handle, n: nat, b: int): seq<BlockMember>
    requires n <= |g.activeUniforms(h)|
  {
    if n == 0 then []
    else MembersIn(g, h, n - 1, b) + if InBlock(g, h, n - 1) && g.uniformBlockIndex(h, n - 1) == b then [Member(g, h, n - 1)] else []
  }

  /** The active uniforms among `0..n-1` that belong to no block, in index order. */
  function LooseIn(g: Gpu, h: Handle, n: nat): seq<UniformInfo>
    requires n <= |g.activeUniforms(h)|
  {
    if n == 0 then []
    else LooseIn(g, h, n - 1) + if g.activeUniforms(h)[n - 1].Some? && !InBlock(g, h, n - 1) then [Loose(g, h, n - 1)] else []
  }

  /** No two blocks share an index. */
  predicate DistinctIndices(blocks: seq<Block>)
  {
    forall i, j | 0 <= i < j < |blocks| :: blocks[i].index != blocks[j].index
  }

  /** A block index with members among the first `n` uniforms is the index of one of them. */
  lemma {:induction false} MembersInUsed(g: Gpu, h: Handle, n: nat, b: int)
    requires n <= |g.activeUniforms(h)| && MembersIn(g, h, n, b) != []
    ensures exists u | 0 <= u < n :: InBlock(g, h, u) && g.uniformBlockIndex(h, u) == b
  {
    if !(InBlock(g, h, n - 1) && g.uniformBlockIndex(h, n - 1) == b) {
      MembersInUsed(g, h, n - 1, b);
    }
  }

  /**
   * Blocks and loose uniforms as the first `n` active uniforms determine them: one
   * block per block index used, named and sized by the context, holding exactly the
   * members of that index; and the loose uniforms.
   */
  ghost predicate Grouped(g: Gpu, h: Handle, n: nat, blocks: seq<Block>, loose: seq<UniformInfo>)
    requires n <= |g.activeUniforms(h)|
  {
    loose == LooseIn(g, h, n) && DistinctIndices(blocks) &&
    (forall i | 0 <= i < |blocks| ::
      blocks[i].index > -1 && blocks[i].name == g.blockName(h, blocks[i].index) && blocks[i].size == g.blockSize(h, blocks[i].index) &&
      blocks[i].uniforms == MembersIn(g, h, n, blocks[i].index) && blocks[i].uniforms != []) &&
    (forall u | 0 <= u < n && InBlock(g, h, u) :: exists i | 0 <= i < |blocks| :: blocks[i].index == g.uniformBlockIndex(h, u))
  }

  /** A uniform outside every block changes no block. */
  lemma GroupsOutsideBlocks(g: Gpu, h: Handle, t: nat, blocks: seq<Block>, loose: seq<UniformInfo>)
    requires t < |g.activeUniforms(h)| && Grouped(g, h, t, blocks, loose) && !InBlock(g, h, t)
    ensures Grouped(g, h, t + 1, blocks, AddUniform(g, h, t, blocks, loose).1)
  {
    forall b
      ensures MembersIn(g, h, t + 1, b) == MembersIn(g, h, t, b)
    {
    }
  }

  /** A uniform of a block not seen yet starts that block. */
  lemma GroupsNewBlock(g: Gpu, h: Handle, t: nat, blocks: seq<Block>, loose: seq<UniformInfo>)
    requires t < |g.activeUniforms(h)| && Grouped(g, h, t, blocks, loose) && InBlock(g, h, t)
    requires forall i | 0 <= i < |blocks| :: blocks[i].index != g.uniformBlockIndex(h, t)
    ensures var b0 := g.uniformBlockIndex(h, t);
      Grouped(g, h, t + 1, blocks + [Block(b0, g.blockName(h, b0), g.blockSize(h, b0), [Member(g, h, t)])], loose)
  {
    var b0 := g.uniformBlockIndex(h, t);
    var blocks' := blocks + [Block(b0, g.blockName(h, b0), g.blockSize(h, b0), [Member(g, h, t)])];
    forall b | b != b0
      ensures MembersIn(g, h, t + 1, b) == MembersIn(g, h, t, b)
    {
    }
    if MembersIn(g, h, t, b0) != [] {
      MembersInUsed(g, h, t, b0);
      assert false;
    }
    assert MembersIn(g, h, t + 1, b0) == [Member(g, h, t)];
    assert blocks'[|blocks|].index == b0;
    assert forall i | 0 <= i < |blocks| :: blocks'[i] == blocks[i];
  }

  /** A uniform of a block already seen joins that block. */
  lemma GroupsJoinBlock(g: Gpu, h: Handle, t: nat, blocks: seq<Block>, loose: seq<UniformInfo>, j: nat)
    requires t < |g.activeUniforms(h)| && Grouped(g, h, t, blocks, loose) && InBlock(g, h, t)
    requires j < |blocks| && blocks[j].index == g.uniformBlockIndex(h, t)
    ensures Grouped(g, h, t + 1, blocks[j := blocks[j].(uniforms := blocks[j].uniforms + [Member(g, h, t)])], loose)
  {
    var b0 := g.uniformBlockIndex(h, t);
    var blocks' := blocks[j := blocks[j].(uniforms := blocks[j].uniforms + [Member(g, h, t)])];
    forall b | b != b0
      ensures MembersIn(g, h, t + 1, b) == MembersIn(g, h, t, b)
    {
    }
    assert MembersIn(g, h, t + 1, b0) == MembersIn(g, h, t, b0) + [Member(g, h, t)];
    assert forall i | 0 <= i < |blocks| :: blocks'[i].index == blocks[i].index;
  }

  /** One turn of the uniform loop keeps the grouping. */
  lemma AddUniformGroups(g: Gpu, h: Handle, t: nat, blocks: seq<Block>, loose: seq<UniformInfo>)
    requires t < |g.activeUniforms(h)| && Grouped(g, h, t, blocks, loose)
    ensures Grouped(g, h, t + 1, AddUniform(g, h, t, blocks, loose).0, AddUniform(g, h, t, blocks, loose).1)
  {
    if !InBlock(g, h, t) {
      GroupsOutsideBlocks(g, h, t, blocks, loose);
    } else {
      var k := FindIndex(blocks, (x: Block) => x.index == g.uniformBlockIndex(h, t));
      if k.None? {
        GroupsNewBlock(g, h, t, blocks, loose);
      } else {
        GroupsJoinBlock(g, h, t, blocks, loose, k.value);
      }
    }
  }

  /** The uniform loop groups the active uniforms by block, and keeps the others as loose uniforms. */
  lemma {:induction false} LinkUniformsGrouped(g: Gpu, h: Handle, n: nat)
    requires n <= |g.activeUniforms(h)|
    ensures Grouped(g, h, n, LinkUniforms(g, h, n).0, LinkUniforms(g, h, n).1)
  {
    if n > 0 {
      LinkUniformsGrouped(g, h, n - 1);
      var r := LinkUniforms(g, h, n - 1);
      AddUniformGroups(g, h, n - 1, r.0, r.1);
      assert LinkUniforms(g, h, n) == AddUniform(g, h, n - 1, r.0, r.1);
    }
  }

  /**
   * A pointer recorded while a vertex array and an ARRAY_BUFFER are bound joins the
   * pointers the vertex array keeps for that buffer's uid, and only those.
   */
  lemma RecordPointerAppends(m: Machine, p: Pointer)
    requires m.Fits() && m.vao.Some? && BoundAt(m, JStr("ARRAY_BUFFER")).Some?
    requires var bindings := m.resources[m.vao.value].info.bindings; bindings.Some? && DistinctUids(bindings.value)
    ensures var r := RecordPointer(m, p);
      var uid := m.resources[BoundAt(m, JStr("ARRAY_BUFFER")).value].uid;
      var before := m.resources[m.vao.value].info.bindings.value;
      var after := r.state.resources[m.vao.value].info.bindings;
      !r.threw && after.Some? && DistinctUids(after.value) &&
      PointersOf(after.value, uid) == PointersOf(before, uid) + [p] &&
      forall v | v != uid :: PointersOf(after.value, v) == PointersOf(before, v)
  {
    var uid := m.resources[BoundAt(m, JStr("ARRAY_BUFFER")).value].uid;
    AddBindingRecords(m.resources[m.vao.value].info.bindings.value, uid, p);
  }

  // ---------------------------------------------------------------------------
  // linkProgram on a program that does not link.
  // ---------------------------------------------------------------------------

  /** A context in which every program fails to link, logging "link failed". */
  function FailingLinks(): Gpu
  {
    Gpu(false, h => true, h => "", h => false, h => "link failed", (p, name) => None, (p, name) => -1, h => -1, h => [],
        (h, t) => -1, (h, t) => 0, (h, b) => "", (h, b) => 0, h => [], target => 0)
  }

  /** One program resource, created with object 0. */
  const OneProgram := Machine([Call(createProgram, [])], [], [Resource(0, Some(0), Typed(JStr("Program")))], map[], None, None)

  /** `{cmd: "linkProgram", program: 0}`. */
  const LinkFirst := JObj(map["cmd" := JStr("linkProgram"), "program" := JNum(0.0)])

  /**
   * As written, a program that does not link makes the command throw, which
   * abandons the rest of the batch and leaves the program's message unset; as
   * intended, the same command records the program's log and the batch goes on.
   */
  lemma FailedLinkThrowsAsWritten()
    ensures OneProgram.Fits()
    ensures LinkStepAsWritten(Scene(FailingLinks(), []), OneProgram, LinkFirst).threw
    ensures LinkStepAsWritten(Scene(FailingLinks(), []), OneProgram, LinkFirst).state.resources[0].info.message.None?
    ensures var r := LinkStep(Scene(FailingLinks(), []), OneProgram, LinkFirst);
      !r.threw && r.state.resources[0].info.message == Some(JStr("link failed"))
  {
    assert ArrayIndex(Field(LinkFirst, "program"), 1) == Some(0);
  }

  // ---------------------------------------------------------------------------
  // A custom message: decoding its buffers and appending its commands.
  // ---------------------------------------------------------------------------

  /**
   * The array a command of the message decodes, when it has its own
   * `buffer_metadata`: `buffer_to_array(metadata.dtype, buffers[metadata.index].buffer)`.
   * None when that throws: a null or undefined command or metadata, a dtype that is
   * not a string, an index naming no buffer of the message, or `buffer_to_array`'s
   * own errors.
   */
  function DecodeOne(c: Json, buffers: seq<seq<ArrayBuffer.Byte>>): Option<seq<ArrayBuffer.View>>
  {
    if c.JNull? || c.JUndefined? then None
    else if !HasOwn(c, "buffer_metadata") then Some([])
    else
      var dtype := Meta(c, "dtype");
      var j := ArrayIndex(Field(Field(c, "buffer_metadata"), "index"), |buffers|);
      if dtype.Failure? || !dtype.value.JStr? || j.None? then None
      else
        var v := ArrayBuffer.BufferToArray(dtype.value.s, buffers[j.value]);
        if v.Failure? then None else Some([v.value])
  }

  /** The arrays of a message's commands, in command order; None when one of them throws. */
  function Decode(commands: seq<Json>, buffers: seq<seq<ArrayBuffer.Byte>>): Option<seq<ArrayBuffer.View>>
  {
    if |commands| == 0 then Some([])
    else
      var front := Decode(commands[..|commands| - 1], buffers);
      var last := DecodeOne(commands[|commands| - 1], buffers);
      if front.None? || last.None? then None else Some(front.value + last.value)
  }

  /** The number of commands with their own `buffer_metadata`. */
  function WithMetadata(commands: seq<Json>): nat
  {
    if |commands| == 0 then 0
    else WithMetadata(commands[..|commands| - 1]) + if HasOwn(commands[|commands| - 1], "buffer_metadata") then 1 else 0
  }

  /** Decoding fails exactly when decoding one of the commands fails. */
  lemma {:induction false} DecodeFails(commands: seq<Json>, buffers: seq<seq<ArrayBuffer.Byte>>)
    ensures Decode(commands, buffers).None? <==> exists i | 0 <= i < |commands| :: DecodeOne(commands[i], buffers).None?
    decreases |commands|
  {
    if |commands| > 0 {
      var front := commands[..|commands| - 1];
      DecodeFails(front, buffers);
      assert forall i | 0 <= i < |front| :: front[i] == commands[i];
    }
  }

  /** A command with metadata that decodes gives one array: the bytes its index names, viewed as its dtype says. */
  lemma DecodeOneView(c: Json, buffers: seq<seq<ArrayBuffer.Byte>>)
    requires HasOwn(c, "buffer_metadata") && DecodeOne(c, buffers).Some?
    ensures var bm := Field(c, "buffer_metadata"); var j := ArrayIndex(Field(bm, "index"), |buffers|);
      var a := DecodeOne(c, buffers).value;
      |a| == 1 && j.Some? && Field(bm, "dtype").JStr? && a[0].bytes == buffers[j.value] && ArrayBuffer.TagName(a[0].elem) == Field(bm, "dtype").s
  {
  }

  /** A command without metadata decodes no array. */
  lemma DecodeOneNone(c: Json, buffers: seq<seq<ArrayBuffer.Byte>>)
    requires !HasOwn(c, "buffer_metadata") && DecodeOne(c, buffers).Some?
    ensures DecodeOne(c, buffers).value == []
  {
  }

  /** When decoding succeeds, the k-th command with metadata has the k-th array. */
  lemma {:induction false} DecodeInOrder(commands: seq<Json>, buffers: seq<seq<ArrayBuffer.Byte>>)
    requires Decode(commands, buffers).Some?
    ensures var a := Decode(commands, buffers).value;
      |a| == WithMetadata(commands) &&
      forall i | 0 <= i < |commands| && HasOwn(commands[i], "buffer_metadata") ::
        DecodeOne(commands[i], buffers).Some? && WithMetadata(commands[..i]) < |a| &&
        [a[WithMetadata(commands[..i])]] == DecodeOne(commands[i], buffers).value
    decreases |commands|
  {
    if |commands| > 0 {
      var n := |commands| - 1;
      var front, c := commands[..n], commands[n];
      DecodeInOrder(front, buffers);
      var head, last := Decode(front, buffers).value, DecodeOne(c, buffers).value;
      var a := Decode(commands, buffers).value;
      assert a == head + last;
      if HasOwn(c, "buffer_metadata") {
        DecodeOneView(c, buffers);
      } else {
        DecodeOneNone(c, buffers);
      }
      forall i | 0 <= i < |commands| && HasOwn(commands[i], "buffer_metadata")
        ensures DecodeOne(commands[i], buffers).Some? && WithMetadata(commands[..i]) < |a|
        ensures [a[WithMetadata(commands[..i])]] == DecodeOne(commands[i], buffers).value
      {
        if i < n {
          assert front[i] == commands[i] && front[..i] == commands[..i];
        } else {
          assert commands[..i] == front;
        }
      }
    }
  }

  /** `index += e`: the index moved past `e` earlier arrays (a non-numeric index reads as no array). */
  function Shift(index: Json, e: nat): Json
  {
    var n := AsNumber(index);
    if n.Some? then JNum(n.value + e as real) else JUndefined
  }

  /** A stored command whose metadata index is moved past `e` earlier arrays. */
  function Rebased(c: Json, e: nat): (r: Json)
    ensures forall key | key != "buffer_metadata" :: Field(r, key) == Field(c, key)
    ensures HasOwn(r, "buffer_metadata") <==> HasOwn(c, "buffer_metadata")
  {
    if HasOwn(c, "buffer_metadata") && Field(c, "buffer_metadata").JObj? then
      var bm := Field(c, "buffer_metadata");
      JObj(c.fields["buffer_metadata" := JObj(bm.fields["index" := Shift(Field(bm, "index"), e)])])
    else c
  }

  /** The commands of a message stored after `e` arrays. */
  function Rebase(commands: seq<Json>, e: nat): (r: seq<Json>)
    ensures |r| == |commands| && forall i | 0 <= i < |r| :: r[i] == Rebased(commands[i], e)
  {
    seq(|commands|, i requires 0 <= i < |commands| => Rebased(commands[i], e))
  }

  /** Moving a number by a whole amount moves its floor by as much. */
  lemma FloorShift(x: real, e: nat)
    ensures (x + e as real).Floor == x.Floor + e
  {
    assert x.Floor as real <= x < x.Floor as real + 1.0;
    assert (x.Floor + e) as real <= x + e as real < (x.Floor + e) as real + 1.0;
  }

  /** A shifted index reads, among `e` earlier arrays followed by `a`, what the index read in `a`. */
  lemma ShiftReadsSameArray(index: Json, earlier: seq<ArrayBuffer.View>, a: seq<ArrayBuffer.View>)
    requires index.JNum? && index.n >= 0.0
    ensures ViewAt(earlier + a, Shift(index, |earlier|)) == ViewAt(a, index)
  {
    var e := |earlier|;
    FloorShift(index.n, e);
    var j := ArrayIndex(index, |a|);
    var j' := ArrayIndex(Shift(index, e), e + |a|);
    assert j'.Some? <==> j.Some?;
    if j.Some? {
      assert j'.value == e + j.value;
      assert (earlier + a)[e + j.value] == a[j.value];
    }
  }

  /**
   * A rebased command reads, among the stored arrays followed by the message's, the
   * array it read among the message's alone; its other metadata is unchanged.
   */
  lemma RebasedReadsSameArray(c: Json, earlier: seq<ArrayBuffer.View>, a: seq<ArrayBuffer.View>)
    requires HasOwn(c, "buffer_metadata") && Field(c, "buffer_metadata").JObj?
    requires var index := Field(Field(c, "buffer_metadata"), "index"); index.JNum? && index.n >= 0.0
    ensures var bm := Field(c, "buffer_metadata"); var bm' := Field(Rebased(c, |earlier|), "buffer_metadata");
      ViewAt(earlier + a, Field(bm', "index")) == ViewAt(a, Field(bm, "index")) &&
      forall key | key != "index" :: Field(bm', key) == Field(bm, key)
  {
    var bm := Field(c, "buffer_metadata");
    assert Field(Field(Rebased(c, |earlier|), "buffer_metadata"), "index") == Shift(Field(bm, "index"), |earlier|);
    ShiftReadsSameArray(Field(bm, "index"), earlier, a);
  }

  /** A command decoded from the message has a number index of at least 0, so rebasing keeps its array. */
  lemma DecodedIndexIsNumber(c: Json, buffers: seq<seq<ArrayBuffer.Byte>>)
    requires HasOwn(c, "buffer_metadata") && DecodeOne(c, buffers).Some?
    ensures Field(c, "buffer_metadata").JObj?
    ensures var index := Field(Field(c, "buffer_metadata"), "index"); index.JNum? && index.n >= 0.0
  {
  }
}
