/**
 * `GLViewer` of ipywebgl/glviewer.py: the Python host object that hands out uids for
 * new GL resources and collects draw commands (one dict each) until `render` sends
 * them to the browser in one message.
 */
module HostViewer {

  import opened Wrappers
  import opened Json
  import HostArrayBuffer

  /** The ten capability flags of `enable`/`disable`, in the order the dict lists them. */
  datatype Caps = Caps(
    blend: bool, cullFace: bool, depthTest: bool, dither: bool, polygonOffsetFill: bool,
    sampleAlphaToCoverage: bool, sampleCoverage: bool, scissorTest: bool, stencilTest: bool,
    rasterizerDiscard: bool)

  /** The keyword defaults of `enable`/`disable`: every flag False. */
  const NoCaps := Caps(false, false, false, false, false, false, false, false, false, false)

  /** The ten flags under their dict keys. */
  function CapsFields(c: Caps): (r: map<string, Json>)
    ensures Has(JObj(r), "blend", JBool(c.blend)) && Has(JObj(r), "cull_face", JBool(c.cullFace))
    ensures Has(JObj(r), "depth_test", JBool(c.depthTest)) && Has(JObj(r), "dither", JBool(c.dither))
    ensures Has(JObj(r), "polygon_offset_fill", JBool(c.polygonOffsetFill))
  {
    map[
      "blend" := JBool(c.blend),
      "cull_face" := JBool(c.cullFace),
      "depth_test" := JBool(c.depthTest),
      "dither" := JBool(c.dither),
      "polygon_offset_fill" := JBool(c.polygonOffsetFill),
      "sample_alpha_to_coverage" := JBool(c.sampleAlphaToCoverage),
      "sample_coverage" := JBool(c.sampleCoverage),
      "scissor_test" := JBool(c.scissorTest),
      "stencil_test" := JBool(c.stencilTest),
      "rasterizer_discard" := JBool(c.rasterizerDiscard)]
  }

  /** The other five flags are recorded too. */
  lemma CapsFieldsRecordRest(c: Caps)
    ensures Has(JObj(CapsFields(c)), "sample_alpha_to_coverage", JBool(c.sampleAlphaToCoverage))
    ensures Has(JObj(CapsFields(c)), "sample_coverage", JBool(c.sampleCoverage))
    ensures Has(JObj(CapsFields(c)), "scissor_test", JBool(c.scissorTest))
    ensures Has(JObj(CapsFields(c)), "stencil_test", JBool(c.stencilTest))
    ensures Has(JObj(CapsFields(c)), "rasterizer_discard", JBool(c.rasterizerDiscard))
  {
  }

  /** The `{'cmd': name, <ten flags>}` dict of `enable`/`disable`. */
  function CapsCommand(name: string, c: Caps): (r: Json)
    ensures Has(r, "cmd", JStr(name))
    ensures forall k | k != "cmd" :: Field(r, k) == Field(JObj(CapsFields(c)), k)
  {
    JObj(CapsFields(c)["cmd" := JStr(name)])
  }

  /** The uid recorded for an optional resource argument: -1 for None. */
  function UidOrNone(resource: Option<int>): (r: int)
    ensures resource.None? ==> r == -1
    ensures resource.Some? ==> r == resource.value
  {
    if resource.Some? then resource.value else -1
  }

  /**
   * The `(metadata, memoryview)` pair of `array_to_buffer`, as the two-element list it
   * becomes in a command: the metadata object, then the payload elements as numbers.
   */
  function ArrayJson(a: HostArrayBuffer.NdArray): (r: Json)
    ensures r.JArr? && |r.items| == 2
    ensures Has(r.items[0], "dtype", JStr(HostArrayBuffer.ArrayToBuffer(a).0.dtype))
  {
    var (meta, payload) := HostArrayBuffer.ArrayToBuffer(a);
    JArr([
      JObj(map["shape" := JArr(seq(|meta.shape|, i requires 0 <= i < |meta.shape| => JNum(meta.shape[i] as real))),
               "dtype" := JStr(meta.dtype)]),
      JArr(seq(|payload.elems|, i requires 0 <= i < |payload.elems| =>
        match payload.elems[i]
        case I(n) => JNum(n as real)
        case F(x) => JNum(x)))])
  }

  /** The `clear` dict: the color argument is stored under 'depth' and the depth argument under 'color'. */
  function ClearCommand(colorBitBuffer: bool, depthBufferBit: bool, stencilBufferBit: bool): (r: Json)
    ensures Has(r, "depth", JBool(colorBitBuffer))
    ensures Has(r, "color", JBool(depthBufferBit))
    ensures Has(r, "stencil", JBool(stencilBufferBit))
  {
    JObj(map["cmd" := JStr("clear"), "depth" := JBool(colorBitBuffer), "color" := JBool(depthBufferBit),
             "stencil" := JBool(stencilBufferBit)])
  }

  /** The `bufferData` dict, keyed by 'type' where every other command uses 'cmd'. */
  function BufferDataCommand(target: string, src: HostArrayBuffer.NdArray, usage: string): (r: Json)
    ensures r.JObj? && "cmd" !in r.fields && Has(r, "type", JStr("bufferData"))
  {
    JObj(map["type" := JStr("bufferData"), "target" := JStr(target), "srcData" := ArrayJson(src),
             "usage" := JStr(usage)])
  }

  class GLViewer {
    /** The commands collected since the last `render` or `clear_commands`. */
    var commands: seq<Json>
    var lastProgram: int
    var lastBuffer: int
    var lastVao: int
    /** Every message passed to `send`, oldest first. */
    var sent: seq<seq<Json>>

    /** `__init__`: no uid handed out yet and no command collected. */
    constructor()
      ensures commands == [] && sent == []
      ensures lastProgram == -1 && lastBuffer == -1 && lastVao == -1
    {
      commands := [];
      sent := [];
      lastProgram := -1;
      lastBuffer := -1;
      lastVao := -1;
    }

    /** `render`: send the collected commands, then start a new list. */
    method Render()
      modifies this
      ensures sent == old(sent) + [old(commands)]
      ensures commands == []
      ensures lastProgram == old(lastProgram) && lastBuffer == old(lastBuffer) && lastVao == old(lastVao)
    {
      sent := sent + [commands];
      ClearCommands();
    }

    /** `clear_commands`: drop the collected commands without sending them. */
    method ClearCommands()
      modifies this
      ensures commands == [] && sent == old(sent)
      ensures lastProgram == old(lastProgram) && lastBuffer == old(lastBuffer) && lastVao == old(lastVao)
    {
      commands := [];
    }

    /** `create_buffer`: the uid of the new buffer widget. */
    method CreateBuffer() returns (uid: int)
      modifies this
      ensures uid == old(lastBuffer) + 1 && lastBuffer == uid
      ensures lastProgram == old(lastProgram) && lastVao == old(lastVao)
      ensures commands == old(commands) && sent == old(sent)
    {
      lastBuffer := lastBuffer + 1;
      uid := lastBuffer;
    }

    /** `create_program`: the uid of the new program widget. */
    method CreateProgram() returns (uid: int)
      modifies this
      ensures uid == old(lastProgram) + 1 && lastProgram == uid
      ensures lastBuffer == old(lastBuffer) && lastVao == old(lastVao)
      ensures commands == old(commands) && sent == old(sent)
    {
      lastProgram := lastProgram + 1;
      uid := lastProgram;
    }

    /** `create_vertex_array`: the uid of the new vertex array widget. */
    method CreateVertexArray() returns (uid: int)
      modifies this
      ensures uid == old(lastVao) + 1 && lastVao == uid
      ensures lastProgram == old(lastProgram) && lastBuffer == old(lastBuffer)
      ensures commands == old(commands) && sent == old(sent)
    {
      lastVao := lastVao + 1;
      uid := lastVao;
    }

    /** Appends one command; nothing else changes. */
    method Append(c: Json)
      modifies this
      ensures commands == old(commands) + [c] && sent == old(sent)
      ensures lastProgram == old(lastProgram) && lastBuffer == old(lastBuffer) && lastVao == old(lastVao)
    {
      commands := commands + [c];
    }

    /** `bind_buffer(target, buffer)`, `buffer` being the uid of a buffer widget or None. */
    method BindBuffer(target: string, buffer: Option<int>)
      modifies this
      ensures commands == old(commands) + [JObj(map["cmd" := JStr("bindBuffer"), "target" := JStr(target),
                                                   "buffer" := JNum(UidOrNone(buffer) as real)])]
      ensures sent == old(sent)
      ensures lastProgram == old(lastProgram) && lastBuffer == old(lastBuffer) && lastVao == old(lastVao)
    {
      var id := -1;
      if buffer.Some? {
        id := buffer.value;
      }
      Append(JObj(map["cmd" := JStr("bindBuffer"), "target" := JStr(target), "buffer" := JNum(id as real)]));
    }

    /** `bind_vertex_array(vao)`. */
    method BindVertexArray(vao: Option<int>)
      modifies this
      ensures commands == old(commands) + [JObj(map["cmd" := JStr("bindVertexArray"), "vao" := JNum(UidOrNone(vao) as real)])]
      ensures sent == old(sent)
      ensures lastProgram == old(lastProgram) && lastBuffer == old(lastBuffer) && lastVao == old(lastVao)
    {
      var id := -1;
      if vao.Some? {
        id := vao.value;
      }
      Append(JObj(map["cmd" := JStr("bindVertexArray"), "vao" := JNum(id as real)]));
    }

    /**
     * `buffer_data(target, src_data, usage)`. Without an array, `array_to_buffer(None)`
     * raises (None has no dtype) before anything is appended.
     */
    method BufferData(target: string, srcData: Option<HostArrayBuffer.NdArray>, usage: string) returns (raised: bool)
      modifies this
      ensures raised <==> srcData.None?
      ensures raised ==> commands == old(commands)
      ensures !raised ==> commands == old(commands) + [BufferDataCommand(target, srcData.value, usage)]
      ensures sent == old(sent)
      ensures lastProgram == old(lastProgram) && lastBuffer == old(lastBuffer) && lastVao == old(lastVao)
    {
      if srcData.None? {
        return true;
      }
      Append(BufferDataCommand(target, srcData.value, usage));
      raised := false;
    }

    /** `clear_color(r, g, b, a)`; the float casts do not change a number's JSON value. */
    method ClearColor(r: real, g: real, b: real, a: real)
      modifies this
      ensures commands == old(commands) + [JObj(map["cmd" := JStr("clearColor"), "r" := JNum(r), "g" := JNum(g),
                                                   "b" := JNum(b), "a" := JNum(a)])]
      ensures sent == old(sent)
      ensures lastProgram == old(lastProgram) && lastBuffer == old(lastBuffer) && lastVao == old(lastVao)
    {
      Append(JObj(map["cmd" := JStr("clearColor"), "r" := JNum(r), "g" := JNum(g), "b" := JNum(b), "a" := JNum(a)]));
    }

    /** `clear(color_bit_buffer, depth_buffer_bit, stencil_buffer_bit)`. */
    method Clear(colorBitBuffer: bool, depthBufferBit: bool, stencilBufferBit: bool)
      modifies this
      ensures commands == old(commands) + [ClearCommand(colorBitBuffer, depthBufferBit, stencilBufferBit)]
      ensures sent == old(sent)
      ensures lastProgram == old(lastProgram) && lastBuffer == old(lastBuffer) && lastVao == old(lastVao)
    {
      Append(ClearCommand(colorBitBuffer, depthBufferBit, stencilBufferBit));
    }

    /** `cull_face(mode)`. */
    method CullFace(mode: string)
      modifies this
      ensures commands == old(commands) + [JObj(map["cmd" := JStr("cullFace"), "mode" := JStr(mode)])]
      ensures sent == old(sent)
      ensures lastProgram == old(lastProgram) && lastBuffer == old(lastBuffer) && lastVao == old(lastVao)
    {
      Append(JObj(map["cmd" := JStr("cullFace"), "mode" := JStr(mode)]));
    }

    /** `depth_func(func)`. */
    method DepthFunc(func: string)
      modifies this
      ensures commands == old(commands) + [JObj(map["cmd" := JStr("depthFunc"), "func" := JStr(func)])]
      ensures sent == old(sent)
      ensures lastProgram == old(lastProgram) && lastBuffer == old(lastBuffer) && lastVao == old(lastVao)
    {
      Append(JObj(map["cmd" := JStr("depthFunc"), "func" := JStr(func)]));
    }

    /** `depth_mask(flag)`. */
    method DepthMask(flag: bool)
      modifies this
      ensures commands == old(commands) + [JObj(map["cmd" := JStr("depthMask"), "flag" := JBool(flag)])]
      ensures sent == old(sent)
      ensures lastProgram == old(lastProgram) && lastBuffer == old(lastBuffer) && lastVao == old(lastVao)
    {
      Append(JObj(map["cmd" := JStr("depthMask"), "flag" := JBool(flag)]));
    }

    /** `depth_range(z_near, z_far)`. */
    method DepthRange(zNear: real, zFar: real)
      modifies this
      ensures commands == old(commands) + [JObj(map["cmd" := JStr("depthRange"), "z_near" := JNum(zNear), "z_far" := JNum(zFar)])]
      ensures sent == old(sent)
      ensures lastProgram == old(lastProgram) && lastBuffer == old(lastBuffer) && lastVao == old(lastVao)
    {
      Append(JObj(map["cmd" := JStr("depthRange"), "z_near" := JNum(zNear), "z_far" := JNum(zFar)]));
    }

    /** `disable(...)`: all ten flags are recorded, whether or not the caller named them. */
    method Disable(c: Caps)
      modifies this
      ensures commands == old(commands) + [CapsCommand("disable", c)]
      ensures sent == old(sent)
      ensures lastProgram == old(lastProgram) && lastBuffer == old(lastBuffer) && lastVao == old(lastVao)
    {
      Append(CapsCommand("disable", c));
    }

    /** `enable(...)`: all ten flags are recorded, whether or not the caller named them. */
    method Enable(c: Caps)
      modifies this
      ensures commands == old(commands) + [CapsCommand("enable", c)]
      ensures sent == old(sent)
      ensures lastProgram == old(lastProgram) && lastBuffer == old(lastBuffer) && lastVao == old(lastVao)
    {
      Append(CapsCommand("enable", c));
    }

    /** `draw_arrays(draw_type, first, count)`: the mode goes under 'type'. */
    method DrawArrays(drawType: string, first: int, count: int)
      modifies this
      ensures commands == old(commands) + [JObj(map["cmd" := JStr("drawArrays"), "type" := JStr(drawType),
                                                   "first" := JNum(first as real), "count" := JNum(count as real)])]
      ensures sent == old(sent)
      ensures lastProgram == old(lastProgram) && lastBuffer == old(lastBuffer) && lastVao == old(lastVao)
    {
      Append(JObj(map["cmd" := JStr("drawArrays"), "type" := JStr(drawType), "first" := JNum(first as real),
                      "count" := JNum(count as real)]));
    }

    /** `draw_elements(mode, count, type, offset)`. */
    method DrawElements(mode: string, count: int, typ: string, offset: int)
      modifies this
      ensures commands == old(commands) + [JObj(map["cmd" := JStr("drawElements"), "mode" := JStr(mode),
                                                   "count" := JNum(count as real), "type" := JStr(typ),
                                                   "offset" := JNum(offset as real)])]
      ensures sent == old(sent)
      ensures lastProgram == old(lastProgram) && lastBuffer == old(lastBuffer) && lastVao == old(lastVao)
    {
      Append(JObj(map["cmd" := JStr("drawElements"), "mode" := JStr(mode), "count" := JNum(count as real),
                      "type" := JStr(typ), "offset" := JNum(offset as real)]));
    }

    /** `front_face(mode)`. */
    method FrontFace(mode: string)
      modifies this
      ensures commands == old(commands) + [JObj(map["cmd" := JStr("frontFace"), "mode" := JStr(mode)])]
      ensures sent == old(sent)
      ensures lastProgram == old(lastProgram) && lastBuffer == old(lastBuffer) && lastVao == old(lastVao)
    {
      Append(JObj(map["cmd" := JStr("frontFace"), "mode" := JStr(mode)]));
    }

    /** `use_program(program)`. */
    method UseProgram(program: Option<int>)
      modifies this
      ensures commands == old(commands) + [JObj(map["cmd" := JStr("useProgram"), "program" := JNum(UidOrNone(program) as real)])]
      ensures sent == old(sent)
      ensures lastProgram == old(lastProgram) && lastBuffer == old(lastBuffer) && lastVao == old(lastVao)
    {
      var id := -1;
      if program.Some? {
        id := program.value;
      }
      Append(JObj(map["cmd" := JStr("useProgram"), "program" := JNum(id as real)]));
    }

    /** `set_uniform(name, array)`. */
    method SetUniform(name: string, values: HostArrayBuffer.NdArray)
      modifies this
      ensures commands == old(commands) + [JObj(map["cmd" := JStr("uniform"), "name" := JStr(name), "buffer" := ArrayJson(values)])]
      ensures sent == old(sent)
      ensures lastProgram == old(lastProgram) && lastBuffer == old(lastBuffer) && lastVao == old(lastVao)
    {
      Append(JObj(map["cmd" := JStr("uniform"), "name" := JStr(name), "buffer" := ArrayJson(values)]));
    }

    /** `set_uniform_matrix(name, array)`. */
    method SetUniformMatrix(name: string, values: HostArrayBuffer.NdArray)
      modifies this
      ensures commands == old(commands) + [JObj(map["cmd" := JStr("uniformMatrix"), "name" := JStr(name), "buffer" := ArrayJson(values)])]
      ensures sent == old(sent)
      ensures lastProgram == old(lastProgram) && lastBuffer == old(lastBuffer) && lastVao == old(lastVao)
    {
      Append(JObj(map["cmd" := JStr("uniformMatrix"), "name" := JStr(name), "buffer" := ArrayJson(values)]));
    }
  }

  /** The three kinds of widget a viewer hands out uids for. */
  datatype WidgetKind = BufferWidget | ProgramWidget | VertexArrayWidget

  /** How many widgets of kind `k` the list creates. */
  function CountOf(kinds: seq<WidgetKind>, k: WidgetKind): nat
  {
    if |kinds| == 0 then 0 else CountOf(kinds[..|kinds| - 1], k) + if kinds[|kinds| - 1] == k then 1 else 0
  }

  /** One more widget adds one to the count of its kind and nothing to the others. */
  lemma CountOfNext(kinds: seq<WidgetKind>, i: nat)
    requires i < |kinds|
    ensures forall k :: CountOf(kinds[..i + 1], k) == CountOf(kinds[..i], k) + if kinds[i] == k then 1 else 0
  {
    assert kinds[..i + 1][..i] == kinds[..i];
  }

  /**
   * Uids of one kind count 0, 1, 2, ... from a fresh viewer, whatever is created of
   * the other kinds in between: creating the widgets `kinds` in order, each gets the
   * number of widgets of its kind created before it.
   */
  method UidsCountFromZero(kinds: seq<WidgetKind>) returns (uids: seq<int>)
    ensures |uids| == |kinds|
    ensures forall i | 0 <= i < |kinds| :: uids[i] == CountOf(kinds[..i], kinds[i])
  {
    var viewer := new GLViewer();
    uids := [];
    var i := 0;
    while i < |kinds|
      invariant 0 <= i <= |kinds| && |uids| == i
      invariant forall j | 0 <= j < i :: uids[j] == CountOf(kinds[..j], kinds[j])
      invariant viewer.lastBuffer == CountOf(kinds[..i], BufferWidget) - 1
      invariant viewer.lastProgram == CountOf(kinds[..i], ProgramWidget) - 1
      invariant viewer.lastVao == CountOf(kinds[..i], VertexArrayWidget) - 1
    {
      CountOfNext(kinds, i);
      var uid;
      match kinds[i] {
        case BufferWidget => uid := viewer.CreateBuffer();
        case ProgramWidget => uid := viewer.CreateProgram();
        case VertexArrayWidget => uid := viewer.CreateVertexArray();
      }
      uids := uids + [uid];
      i := i + 1;
    }
  }
}
