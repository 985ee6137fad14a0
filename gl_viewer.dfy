/**
 * `GLModel` and `GLViewer` of src/glviewer.ts: the earlier command interpreter.
 *
 * `GLModel` keeps three registries (programs, buffers, vertex arrays) indexed by uid,
 * replaces its command list with each message and replays it against the WebGL
 * context, mirroring the bound program and vertex array. A command is a JavaScript
 * object read field by field; the uniform commands also carry the bytes of their
 * array. `GLViewer` is the view: it coalesces redraw requests and turns key and
 * mouse events into camera movement.
 */
module Viewer {

  import opened Wrappers
  import opened Json
  import opened GL
  import ArrayBuffer
  import BufferHelper
  import Program
  import HostViewer
  import HostArrayBuffer
  import VertexArray
  import Camera
  import opened Matrix
  import opened Tables

  // ---------------------------------------------------------------------------
  // Token tables. Each compares the command field with `===` (or, for the face
  // tables, `==`, which agrees with `===` on strings) and falls back to a default.
  // ---------------------------------------------------------------------------

  /** The seven primitive tokens of `get_draw_mode` and their modes. */
  const DrawModes: seq<(string, GLenum)> := [
    ("triangles", TRIANGLES),
    ("triangle_fan", TRIANGLE_FAN),
    ("triangle_strip", TRIANGLE_STRIP),
    ("points", POINTS),
    ("lines", LINES),
    ("line_strip", LINE_STRIP),
    ("line_loop", LINE_LOOP)
  ]

  /**
   * A token field looked up in a table: a string among the table's tokens gives its
   * enumerant, anything else (another string, a number, a missing field) the default.
   */
  function Token(table: seq<(string, GLenum)>, field: Json, default: GLenum): GLenum
  {
    if field.JStr? then Find(table, field.s).GetOr(default) else default
  }

  /** A field holding one of the tokens of a table without repeats gives that token's enumerant; any other the default. */
  lemma TokenOf(table: seq<(string, GLenum)>, field: Json, default: GLenum)
    requires DistinctKeys(table)
    ensures forall i | 0 <= i < |table| :: field == JStr(table[i].0) ==> Token(table, field, default) == table[i].1
    ensures (forall i | 0 <= i < |table| :: field != JStr(table[i].0)) ==> Token(table, field, default) == default
  {
    if field.JStr? {
      FindExactly(table, field.s);
    }
  }

  /** `get_draw_mode`. */
  function DrawMode(mode: Json): GLenum
  {
    Token(DrawModes, mode, TRIANGLES)
  }

  /** `get_draw_mode`: each of the seven tokens gives its mode, anything else TRIANGLES. */
  lemma DrawModeOf(mode: Json)
    ensures forall i | 0 <= i < |DrawModes| :: mode == JStr(DrawModes[i].0) ==> DrawMode(mode) == DrawModes[i].1
    ensures (forall i | 0 <= i < |DrawModes| :: mode != JStr(DrawModes[i].0)) ==> DrawMode(mode) == TRIANGLES
  {
    assert DistinctKeys(DrawModes);
    TokenOf(DrawModes, mode, TRIANGLES);
  }

  /** The eight comparison tokens of `get_depth_func` and their functions. */
  const DepthFuncs: seq<(string, GLenum)> := [
    ("less", LESS),
    ("never", NEVER),
    ("equal", EQUAL),
    ("lequal", LEQUAL),
    ("greater", GREATER),
    ("notequal", NOTEQUAL),
    ("gequal", GEQUAL),
    ("always", ALWAYS)
  ]

  /** `get_depth_func`. */
  function DepthFunc(func: Json): GLenum
  {
    Token(DepthFuncs, func, LESS)
  }

  /** `get_depth_func`: each of the eight tokens gives its function, anything else LESS. */
  lemma DepthFuncOf(func: Json)
    ensures forall i | 0 <= i < |DepthFuncs| :: func == JStr(DepthFuncs[i].0) ==> DepthFunc(func) == DepthFuncs[i].1
    ensures (forall i | 0 <= i < |DepthFuncs| :: func != JStr(DepthFuncs[i].0)) ==> DepthFunc(func) == LESS
  {
    assert DistinctKeys(DepthFuncs);
    TokenOf(DepthFuncs, func, LESS);
  }

  /** The face `cullFace` culls: BACK, replaced by FRONT on 'front' and by FRONT_AND_BACK on 'front_and_back'. */
  function CullFaceMode(mode: Json): GLenum
  {
    var cull := BACK;
    var cull := if mode == JStr("front") then FRONT else cull;
    if mode == JStr("front_and_back") then FRONT_AND_BACK else cull
  }

  /** Each face comes from exactly its token, BACK from any other value. */
  lemma CullFaceModeOf(mode: Json)
    ensures CullFaceMode(mode) == FRONT <==> mode == JStr("front")
    ensures CullFaceMode(mode) == FRONT_AND_BACK <==> mode == JStr("front_and_back")
    ensures CullFaceMode(mode) == BACK <==> mode != JStr("front") && mode != JStr("front_and_back")
  {
  }

  /** The winding `frontFace` sets. */
  function FrontFaceMode(mode: Json): GLenum
  {
    if mode == JStr("cw") then CW else CCW
  }

  /** CW exactly for 'cw', CCW for any other value. */
  lemma FrontFaceModeOf(mode: Json)
    ensures FrontFaceMode(mode) == CW <==> mode == JStr("cw")
    ensures FrontFaceMode(mode) == CCW <==> mode != JStr("cw")
  {
  }

  /** The index type of `drawElements`. */
  function IndexType(t: Json): GLenum
  {
    if t == JStr("uint16") then UNSIGNED_SHORT else UNSIGNED_BYTE
  }

  /** UNSIGNED_SHORT exactly for 'uint16', UNSIGNED_BYTE for any other value. */
  lemma IndexTypeOf(t: Json)
    ensures IndexType(t) == UNSIGNED_SHORT <==> t == JStr("uint16")
    ensures IndexType(t) == UNSIGNED_BYTE <==> t != JStr("uint16")
  {
  }

  // ---------------------------------------------------------------------------
  // Bit masks.
  // ---------------------------------------------------------------------------

  /**
   * The flags `get_caps` reads and the enumerant each contributes. `depth_test`
   * contributes DEPTH (the depth attachment, not DEPTH_TEST), and `cull_face` is
   * not read at all.
   */
  const CapsTable: seq<(string, GLenum)> := [
    ("blend", BLEND),
    ("depth_test", DEPTH),
    ("dither", DITHER),
    ("polygon_offset_fill", POLYGON_OFFSET_FILL),
    ("sample_alpha_to_coverage", SAMPLE_ALPHA_TO_COVERAGE),
    ("sample_coverage", SAMPLE_COVERAGE),
    ("scissor_test", SCISSOR_TEST),
    ("stencil_test", STENCIL_TEST),
    ("rasterizer_discard", RASTERIZER_DISCARD)
  ]

  /** `e` when the command's flag `key` is truthy, else 0. */
  function BitIf(command: Json, key: string, e: GLenum): (r: GLenum)
    ensures Truthy(Field(command, key)) ==> r == e
    ensures !Truthy(Field(command, key)) ==> r == 0
  {
    if Truthy(Field(command, key)) then e else 0
  }

  /** The enumerant `cap |= e` ORs in when the command's flag `key` is truthy: `[e]`, or nothing. */
  function FlagIf(command: Json, key: string, e: GLenum): (r: seq<GLenum>)
    ensures Truthy(Field(command, key)) <==> r == [e]
    ensures !Truthy(Field(command, key)) <==> r == []
  {
    if Truthy(Field(command, key)) then [e] else []
  }

  /** The enumerants of the table's flags that the command sets, in table order. */
  function SetFlags(command: Json, table: seq<(string, GLenum)>): (r: seq<GLenum>)
    ensures |r| <= |table|
  {
    if |table| == 0 then []
    else SetFlags(command, table[..|table| - 1]) + FlagIf(command, table[|table| - 1].0, table[|table| - 1].1)
  }

  /**
   * `get_caps`: the nine flags tested one after the other, in table order, each
   * OR-ing its enumerant in when set. The result is the list of enumerants OR-ed
   * together; the context receives their bitwise OR (`OrOf`).
   */
  function GetCaps(command: Json): seq<GLenum>
  {
    SetFlags(command, CapsTable)
  }

  /** An enumerant is selected exactly when some flag of the table carrying it is set. */
  lemma {:induction false} SetFlagsSelect(command: Json, table: seq<(string, GLenum)>, e: GLenum)
    ensures e in SetFlags(command, table) <==>
      exists i | 0 <= i < |table| :: table[i].1 == e && Truthy(Field(command, table[i].0))
    decreases |table|
  {
    if |table| > 0 {
      var p := table[..|table| - 1];
      SetFlagsSelect(command, p, e);
      if e in SetFlags(command, p) {
        var i :| 0 <= i < |p| && p[i].1 == e && Truthy(Field(command, p[i].0));
        assert table[i] == p[i];
      }
      if exists i | 0 <= i < |table| :: table[i].1 == e && Truthy(Field(command, table[i].0)) {
        var i :| 0 <= i < |table| && table[i].1 == e && Truthy(Field(command, table[i].0));
        if i < |p| {
          assert p[i] == table[i];
        }
      }
    }
  }

  /** A command setting none of the table's flags selects nothing. */
  lemma {:induction false} SetFlagsNone(command: Json, table: seq<(string, GLenum)>)
    requires forall i | 0 <= i < |table| :: !Truthy(Field(command, table[i].0))
    ensures SetFlags(command, table) == []
    decreases |table|
  {
    if |table| > 0 {
      var p := table[..|table| - 1];
      assert forall i | 0 <= i < |p| :: p[i] == table[i];
      SetFlagsNone(command, p);
    }
  }

  /** Two commands that agree on the table's flags select the same enumerants. */
  lemma {:induction false} SetFlagsReadOnlyTable(c: Json, d: Json, table: seq<(string, GLenum)>)
    requires forall i | 0 <= i < |table| :: Field(c, table[i].0) == Field(d, table[i].0)
    ensures SetFlags(c, table) == SetFlags(d, table)
    decreases |table|
  {
    if |table| > 0 {
      var p := table[..|table| - 1];
      assert forall i | 0 <= i < |p| :: p[i] == table[i];
      SetFlagsReadOnlyTable(c, d, p);
    }
  }

  /** No enumerant appears twice in the table. */
  predicate DistinctEnums(table: seq<(string, GLenum)>)
  {
    forall i, j | 0 <= i < j < |table| :: table[i].1 != table[j].1
  }

  /** When the table's enumerants are distinct, each is selected exactly when its flag is set. */
  lemma SelectedExactly(command: Json, table: seq<(string, GLenum)>)
    requires DistinctEnums(table)
    ensures forall k | 0 <= k < |table| :: table[k].1 in SetFlags(command, table) <==> Truthy(Field(command, table[k].0))
  {
    forall k | 0 <= k < |table|
      ensures table[k].1 in SetFlags(command, table) <==> Truthy(Field(command, table[k].0))
    {
      SetFlagsSelect(command, table, table[k].1);
    }
  }

  /**
   * `get_caps` holds DEPTH exactly when `depth_test` is set, and each other
   * capability exactly when its flag is set.
   */
  lemma CapsOfFlags(command: Json)
    ensures forall i | 0 <= i < |CapsTable| :: CapsTable[i].1 in GetCaps(command) <==> Truthy(Field(command, CapsTable[i].0))
  {
    assert DistinctEnums(CapsTable);
    SelectedExactly(command, CapsTable);
  }

  /** `get_caps` holds nothing but the table's enumerants: never CULL_FACE, never DEPTH_TEST. */
  lemma CapsHoldOnlyTable(command: Json, e: GLenum)
    ensures e in GetCaps(command) ==> exists i | 0 <= i < |CapsTable| :: CapsTable[i].1 == e
    ensures CULL_FACE !in GetCaps(command) && DEPTH_TEST !in GetCaps(command)
  {
    SetFlagsSelect(command, CapsTable, e);
    SetFlagsSelect(command, CapsTable, CULL_FACE);
    SetFlagsSelect(command, CapsTable, DEPTH_TEST);
  }

  /** A command setting none of the nine flags enables or disables 0. */
  lemma CapsOfNoFlags(command: Json)
    requires forall i | 0 <= i < |CapsTable| :: !Truthy(Field(command, CapsTable[i].0))
    ensures GetCaps(command) == [] && OrOf(GetCaps(command)) == 0
  {
    SetFlagsNone(command, CapsTable);
  }

  /** `get_caps` never reads `cull_face`: changing it changes nothing. */
  lemma CapsIgnoreCullFace(fields: map<string, Json>, v: Json)
    ensures GetCaps(JObj(fields["cull_face" := v])) == GetCaps(JObj(fields))
  {
    var c := JObj(fields);
    var d := JObj(fields["cull_face" := v]);
    forall i | 0 <= i < |CapsTable|
      ensures Field(d, CapsTable[i].0) == Field(c, CapsTable[i].0)
    {
      assert CapsTable[i].0 != "cull_face";
    }
    SetFlagsReadOnlyTable(d, c, CapsTable);
  }

  /** `get_caps` flag by flag. */
  lemma CapsByName(c: Json)
    ensures var r := GetCaps(c);
      (BLEND in r <==> Truthy(Field(c, "blend"))) && (DEPTH in r <==> Truthy(Field(c, "depth_test"))) &&
      (DITHER in r <==> Truthy(Field(c, "dither"))) &&
      (POLYGON_OFFSET_FILL in r <==> Truthy(Field(c, "polygon_offset_fill"))) &&
      (SAMPLE_ALPHA_TO_COVERAGE in r <==> Truthy(Field(c, "sample_alpha_to_coverage"))) &&
      (SAMPLE_COVERAGE in r <==> Truthy(Field(c, "sample_coverage"))) &&
      (SCISSOR_TEST in r <==> Truthy(Field(c, "scissor_test"))) &&
      (STENCIL_TEST in r <==> Truthy(Field(c, "stencil_test"))) &&
      (RASTERIZER_DISCARD in r <==> Truthy(Field(c, "rasterizer_discard")))
  {
    CapsOfFlags(c);
    assert CapsTable[0] == ("blend", BLEND);
    assert CapsTable[1] == ("depth_test", DEPTH);
    assert CapsTable[2] == ("dither", DITHER);
    assert CapsTable[3] == ("polygon_offset_fill", POLYGON_OFFSET_FILL);
    assert CapsTable[4] == ("sample_alpha_to_coverage", SAMPLE_ALPHA_TO_COVERAGE);
    assert CapsTable[5] == ("sample_coverage", SAMPLE_COVERAGE);
    assert CapsTable[6] == ("scissor_test", SCISSOR_TEST);
    assert CapsTable[7] == ("stencil_test", STENCIL_TEST);
    assert CapsTable[8] == ("rasterizer_discard", RASTERIZER_DISCARD);
  }

  /** Two commands that agree on the nine flags enable the same capabilities. */
  lemma SameNineFlags(c: Json, d: Json)
    requires Field(c, "blend") == Field(d, "blend") && Field(c, "depth_test") == Field(d, "depth_test")
    requires Field(c, "dither") == Field(d, "dither") && Field(c, "polygon_offset_fill") == Field(d, "polygon_offset_fill")
    requires Field(c, "sample_alpha_to_coverage") == Field(d, "sample_alpha_to_coverage")
    requires Field(c, "sample_coverage") == Field(d, "sample_coverage") && Field(c, "scissor_test") == Field(d, "scissor_test")
    requires Field(c, "stencil_test") == Field(d, "stencil_test") && Field(c, "rasterizer_discard") == Field(d, "rasterizer_discard")
    ensures GetCaps(c) == GetCaps(d)
  {
    forall i | 0 <= i < |CapsTable|
      ensures Field(c, CapsTable[i].0) == Field(d, CapsTable[i].0)
    {
    }
    SetFlagsReadOnlyTable(c, d, CapsTable);
  }

  /**
   * What an `enable`/`disable` dict built by the Python host turns into: DEPTH exactly
   * when `depth_test` is true, each other capability exactly when its flag is true.
   */
  lemma HostCapsReplayed(name: string, h: HostViewer.Caps)
    ensures var r := GetCaps(HostViewer.CapsCommand(name, h));
      (BLEND in r <==> h.blend) && (DEPTH in r <==> h.depthTest) && (DITHER in r <==> h.dither) &&
      (POLYGON_OFFSET_FILL in r <==> h.polygonOffsetFill) &&
      (SAMPLE_ALPHA_TO_COVERAGE in r <==> h.sampleAlphaToCoverage) &&
      (SAMPLE_COVERAGE in r <==> h.sampleCoverage) && (SCISSOR_TEST in r <==> h.scissorTest) &&
      (STENCIL_TEST in r <==> h.stencilTest) && (RASTERIZER_DISCARD in r <==> h.rasterizerDiscard)
  {
    HostFields(name, h);
    CapsByName(HostViewer.CapsCommand(name, h));
  }

  /** The host's `cull_face` flag has no effect on what is enabled or disabled. */
  lemma HostCullFaceIgnored(name: string, h: HostViewer.Caps, cullFace: bool)
    ensures GetCaps(HostViewer.CapsCommand(name, h.(cullFace := cullFace))) == GetCaps(HostViewer.CapsCommand(name, h))
  {
    HostFields(name, h);
    HostFields(name, h.(cullFace := cullFace));
    SameNineFlags(HostViewer.CapsCommand(name, h.(cullFace := cullFace)), HostViewer.CapsCommand(name, h));
  }

  /** The nine flags `get_caps` reads, as the host dict holds them. */
  lemma HostFields(name: string, h: HostViewer.Caps)
    ensures var c := HostViewer.CapsCommand(name, h);
      Field(c, "blend") == JBool(h.blend) && Field(c, "depth_test") == JBool(h.depthTest) &&
      Field(c, "dither") == JBool(h.dither) && Field(c, "polygon_offset_fill") == JBool(h.polygonOffsetFill) &&
      Field(c, "sample_alpha_to_coverage") == JBool(h.sampleAlphaToCoverage) &&
      Field(c, "sample_coverage") == JBool(h.sampleCoverage) && Field(c, "scissor_test") == JBool(h.scissorTest) &&
      Field(c, "stencil_test") == JBool(h.stencilTest) && Field(c, "rasterizer_discard") == JBool(h.rasterizerDiscard)
  {
    HostViewer.CapsFieldsRecordRest(h);
  }

  /** The mask `clear` passes: one bit per truthy flag among `depth`, `color` and `stencil`. */
  function ClearBits(command: Json): GLenum
  {
    var bits: GLenum := 0;
    var bits := bits | BitIf(command, "depth", DEPTH_BUFFER_BIT);
    var bits := bits | BitIf(command, "color", COLOR_BUFFER_BIT);
    bits | BitIf(command, "stencil", STENCIL_BUFFER_BIT)
  }

  /** The mask holds each of the three bits exactly when its flag is truthy, and no other bit: all-false gives 0. */
  lemma ClearBitsOf(command: Json)
    ensures var r := ClearBits(command);
      (r & DEPTH_BUFFER_BIT != 0 <==> Truthy(Field(command, "depth"))) &&
      (r & COLOR_BUFFER_BIT != 0 <==> Truthy(Field(command, "color"))) &&
      (r & STENCIL_BUFFER_BIT != 0 <==> Truthy(Field(command, "stencil"))) &&
      r & !(DEPTH_BUFFER_BIT | COLOR_BUFFER_BIT | STENCIL_BUFFER_BIT) == 0
  {
  }

  /**
   * The host stores its `color_bit_buffer` argument under 'depth' and
   * `depth_buffer_bit` under 'color', so replaying its `clear` clears the depth buffer
   * exactly when the color argument was set, and the color buffer exactly when the
   * depth argument was.
   */
  lemma HostClearSwapsBuffers(colorBitBuffer: bool, depthBufferBit: bool, stencilBufferBit: bool)
    ensures var r := ClearBits(HostViewer.ClearCommand(colorBitBuffer, depthBufferBit, stencilBufferBit));
      (r & DEPTH_BUFFER_BIT != 0 <==> colorBitBuffer) &&
      (r & COLOR_BUFFER_BIT != 0 <==> depthBufferBit) &&
      (r & STENCIL_BUFFER_BIT != 0 <==> stencilBufferBit)
  {
    var c := HostViewer.ClearCommand(colorBitBuffer, depthBufferBit, stencilBufferBit);
    ClearBitsOf(c);
    assert Field(c, "depth") == JBool(colorBitBuffer);
    assert Field(c, "color") == JBool(depthBufferBit);
    assert Field(c, "stencil") == JBool(stencilBufferBit);
  }

  // ---------------------------------------------------------------------------
  // Replaying commands: one step per command, as a function of what it reads and
  // what it changes.
  // ---------------------------------------------------------------------------

  /**
   * `update_buffer(gl, is_dynamic, data)` of src/glbuffer.ts: bind the buffer to
   * ARRAY_BUFFER and give it `data`, declared dynamic when `is_dynamic` is truthy.
   */
  function UpdateCalls(buffer: Option<Handle>, isDynamic: Json, data: Arg): seq<Call>
  {
    [Call(bindBuffer, [Enum(ARRAY_BUFFER), Object(buffer)]),
     Call(bufferData, [Enum(ARRAY_BUFFER), data, Enum(if Truthy(isDynamic) then DYNAMIC_DRAW else STATIC_DRAW)])]
  }

  /** `convert_buffer_target` on a command field: a value that is not a known token is logged and read as ARRAY_BUFFER. */
  function TargetOf(target: Json): (r: BufferHelper.Converted)
    ensures target.JStr? ==> r == BufferHelper.ConvertBufferTarget(target.s)
    ensures !target.JStr? ==> r.value == ARRAY_BUFFER && r.logged == Some("unknown buffer target " + Stringify(target))
  {
    if target.JStr? then BufferHelper.ConvertBufferTarget(target.s)
    else BufferHelper.Converted(ARRAY_BUFFER, Some("unknown buffer target " + Stringify(target)))
  }

  /** The console lines a conversion wrote. */
  function Logged(c: BufferHelper.Converted): seq<string>
  {
    if c.logged.Some? then [c.logged.value] else []
  }

  /** The commands `run_commands` knows, one per case of its switch on `cmd`. */
  datatype Kind =
    | BindBufferCmd | BindVertexArrayCmd | BufferDataCmd | ClearColorCmd | ClearCmd | CullFaceCmd | EnableCmd
    | DepthFuncCmd | DepthMaskCmd | DepthRangeCmd | DisableCmd | FrontFaceCmd | UseProgramCmd | UniformCmd
    | UniformMatrixCmd | DrawArraysCmd | DrawElementsCmd

  /** The case labels of the switch, in order; any other `cmd` matches no case and is skipped. */
  const Commands: seq<(string, Kind)> := [
    ("bindBuffer", BindBufferCmd),
    ("bindVertexArray", BindVertexArrayCmd),
    ("bufferData", BufferDataCmd),
    ("clearColor", ClearColorCmd),
    ("clear", ClearCmd),
    ("cullFace", CullFaceCmd),
    ("enable", EnableCmd),
    ("depthFunc", DepthFuncCmd),
    ("depthMask", DepthMaskCmd),
    ("depthRange", DepthRangeCmd),
    ("disable", DisableCmd),
    ("frontFace", FrontFaceCmd),
    ("useProgram", UseProgramCmd),
    ("uniform", UniformCmd),
    ("uniformMatrix", UniformMatrixCmd),
    ("drawArrays", DrawArraysCmd),
    ("drawElements", DrawElementsCmd)
  ]

  /** Every case label selects its own kind, and the seventeen kinds are told apart. */
  lemma CommandOf(i: nat)
    requires i < |Commands|
    ensures Find(Commands, Commands[i].0) == Some(Commands[i].1)
  {
    assert DistinctKeys(Commands);
    FindFirst(Commands, Commands[i].0, i);
  }

  /**
   * The single call of a command that reads nothing but its own fields (the
   * fixed-function state and the draws); none for the other kinds.
   */
  function FixedCall(command: Json, kind: Kind): (r: Option<Call>)
    ensures r.None? <==> kind in {BindBufferCmd, BindVertexArrayCmd, BufferDataCmd, UseProgramCmd, UniformCmd, UniformMatrixCmd}
  {
    match kind
    case ClearColorCmd =>
      Some(Call(clearColor, [Val(Field(command, "r")), Val(Field(command, "g")), Val(Field(command, "b")), Val(Field(command, "a"))]))
    case ClearCmd => Some(Call(clear, [Enum(ClearBits(command))]))
    case CullFaceCmd => Some(Call(cullFace, [Enum(CullFaceMode(Field(command, "mode")))]))
    case EnableCmd => Some(Call(enable, [Mask(GetCaps(command))]))
    case DepthFuncCmd => Some(Call(depthFunc, [Enum(DepthFunc(Field(command, "func")))]))
    case DepthMaskCmd => Some(Call(depthMask, [Val(Field(command, "flag"))]))
    case DepthRangeCmd => Some(Call(depthRange, [Val(Field(command, "z_near")), Val(Field(command, "z_far"))]))
    case DisableCmd => Some(Call(disable, [Mask(GetCaps(command))]))
    case FrontFaceCmd => Some(Call(frontFace, [Enum(FrontFaceMode(Field(command, "mode")))]))
    case DrawArraysCmd =>
      Some(Call(drawArrays, [Enum(DrawMode(Field(command, "type"))), Val(Field(command, "first")), Val(Field(command, "count"))]))
    case DrawElementsCmd =>
      Some(Call(drawElements, [Enum(DrawMode(Field(command, "mode"))), Val(Field(command, "count")),
                               Enum(IndexType(Field(command, "type"))), Val(Field(command, "offset"))]))
    case _ => None
  }

  /** The kind of a command whose `cmd` is one of the case labels. */
  function KindOf(command: Json): Option<Kind>
  {
    var cmd := Field(command, "cmd");
    if cmd.JStr? then Find(Commands, cmd.s) else None
  }

  /** A command of one of the eleven kinds `FixedCall` covers. */
  predicate IsFixed(command: Json)
  {
    KindOf(command).Some? && FixedCall(command, KindOf(command).value).Some?
  }

  /**
   * What a replay reads and never changes: the context's answers (none without a
   * context, when every case is skipped), the buffer object
   * of each registered buffer and the vertex array object of each registered vertex
   * array (by uid), and the matrix uploaded as `ViewProjection`.
   */
  datatype Scene = Scene(gpu: Option<Gpu>, buffers: seq<Option<Handle>>, vertexArrays: seq<Option<Handle>>, viewProjection: seq<real>)

  /**
   * What a replay changes: the calls made, the console, the bound program and vertex
   * array (by uid), and the state of each registered program, whose uniform cache
   * grows with every lookup.
   */
  datatype Machine = Machine(
    calls: seq<Call>,
    console: seq<string>,
    program: Option<nat>,
    vertexArray: Option<nat>,
    programs: seq<Program.ProgramState>)
  {
    /** The bound program and vertex array are registered ones. */
    predicate Fits(s: Scene)
    {
      (program.Some? ==> program.value < |programs|) && (vertexArray.Some? ==> vertexArray.value < |s.vertexArrays|)
    }
  }

  /** The state after a command, and whether it threw (which abandons the rest of the batch). */
  datatype Outcome = Outcome(state: Machine, threw: bool)

  /**
   * `bindBuffer`: the registered buffer a non-negative `buffer` field names, bound to
   * the converted target; null when the field names none.
   */
  function BindBufferStep(s: Scene, m: Machine, command: Json): Machine
  {
    var i := ArrayIndex(Field(command, "buffer"), |s.buffers|);
    var target := TargetOf(Field(command, "target"));
    m.(calls := m.calls + [Call(bindBuffer, [Enum(target.value), Object(if i.Some? then s.buffers[i.value] else None)])],
       console := m.console + Logged(target))
  }

  /** `bindVertexArray`: the vertex array the `vao` field names becomes the bound one (or none), and is bound. */
  function BindVertexArrayStep(s: Scene, m: Machine, command: Json): Machine
  {
    var i := ArrayIndex(Field(command, "vao"), |s.vertexArrays|);
    m.(calls := m.calls + [Call(bindVertexArray, [Object(if i.Some? then s.vertexArrays[i.value] else None)])],
       vertexArray := i)
  }

  /**
   * `bufferData`: `buf.update_buffer(ctx, command)` passes the command itself as
   * `is_dynamic` and no data, so a registered buffer is bound and given an undefined
   * data store declared DYNAMIC_DRAW; nothing happens for an unregistered one.
   */
  function BufferDataStep(s: Scene, m: Machine, command: Json): Machine
  {
    var i := ArrayIndex(Field(command, "buffer"), |s.buffers|);
    if i.Some? then m.(calls := m.calls + UpdateCalls(s.buffers[i.value], command, Val(JUndefined))) else m
  }

  /** The shape `[4, 4]` of the `ViewProjection` upload. */
  const FourByFour := JArr([JNum(4.0), JNum(4.0)])

  /**
   * `useProgram`: the program the `program` field names becomes the bound one; its
   * program object is used and the scene's view-projection matrix is uploaded to its
   * `ViewProjection` uniform. A field naming no program uses null. A program with no
   * program object (never linked) is bound and used as null, and then the uniform
   * lookup throws.
   */
  function UseProgramStep(s: Scene, m: Machine, command: Json): (r: Outcome)
    requires s.gpu.Some?
    ensures r.state.program == ArrayIndex(Field(command, "program"), |m.programs|)
    ensures r.threw <==> r.state.program.Some? && m.programs[r.state.program.value].program.None?
  {
    var i := ArrayIndex(Field(command, "program"), |m.programs|);
    if i.None? then Outcome(m.(calls := m.calls + [Call(useProgram, [Object(None)])], program := None), false)
    else
      var p := m.programs[i.value];
      var used := m.(calls := m.calls + [Call(useProgram, [Object(p.program)])], program := i);
      var found := Program.LookUp(p, s.gpu.value, "ViewProjection");
      if found.None? then Outcome(used, true)
      else
        var (p', loc) := found.value;
        Outcome(used.(calls := used.calls + Program.MatrixCalls(loc, Program.Dims(FourByFour), Floats(s.viewProjection)),
                      programs := m.programs[i.value := p']), false)
  }

  /** The arguments the uniform commands evaluate before uploading. */
  datatype UniformArgs = UniformArgs(name: string, dtype: string, shape: Json, values: ArrayBuffer.View)

  /**
   * The length a typed-array constructor reads from an argument that is no buffer
   * (`ToIndex`): undefined and null are 0, a boolean 0 or 1, a number truncated
   * toward zero. None for strings, lists and objects, which are not modelled.
   */
  function LengthArgument(data: Json): (r: Option<int>)
    ensures data.JNum? && data.n >= 0.0 ==> r == Some(data.n.Floor)
    ensures data.JNum? && data.n < 0.0 ==> r.Some? && (r.value < 0 <==> data.n <= -1.0)
    ensures data.JNull? || data.JUndefined? ==> r == Some(0)
  {
    match data
    case JUndefined => Some(0)
    case JNull => Some(0)
    case JBool(b) => Some(if b then 1 else 0)
    case JNum(n) => Some(if n >= 0.0 then n.Floor else -((-n).Floor))
    case _ => None
  }

  /** n zero elements of kind t: every kind reads all-zero bytes as zero. */
  function Zeros(t: ArrayBuffer.ElementType, n: nat): (r: ArrayBuffer.View)
    ensures r.elem == t && r.Length() == n && forall i | 0 <= i < |r.bytes| :: r.bytes[i] == 0
  {
    var w := ArrayBuffer.Width(t);
    assert (n * w) / w == n by {
      assert w == 1 || w == 2 || w == 4 || w == 8;
    }
    ArrayBuffer.View(t, seq(n * w, _ => 0))
  }

  /**
   * `buffer_to_array(buffer)` for the `buffer` field `data`: the dtype is checked
   * first; a binary buffer is viewed as it is, and any other argument the typed
   * array's constructor reads as a length gives that many zeros, or a RangeError
   * when it is negative. None for strings, lists and objects, which are not modelled.
   */
  function TypedArray(dtype: string, data: Json): (r: Option<Result<ArrayBuffer.View, ArrayBuffer.Failure>>)
    ensures data.JBytes? ==> r == Some(ArrayBuffer.BufferToArray(dtype, data.bytes))
    ensures !data.JBytes? ==> (r.Some? <==> LengthArgument(data).Some?)
    ensures !data.JBytes? && r.Some? ==>
      (r.value.Success? <==> (exists t :: ArrayBuffer.TagName(t) == dtype) && LengthArgument(data).value >= 0) &&
      (r.value.Success? ==> ArrayBuffer.TagName(r.value.value.elem) == dtype && r.value.value == Zeros(r.value.value.elem, LengthArgument(data).value))
  {
    if data.JBytes? then Some(ArrayBuffer.BufferToArray(dtype, data.bytes))
    else
      var n := LengthArgument(data);
      if n.None? then None
      else
        var kind := ArrayBuffer.BufferToArray(dtype, []);
        if kind.Failure? then Some(kind)
        else if n.value < 0 then Some(Failure(ArrayBuffer.RangeError))
        else Some(Success(Zeros(kind.value.elem, n.value)))
  }

  /**
   * `command.name`, `command.buffer.dtype`, `command.buffer.shape` and
   * `buffer_to_array(command.buffer)`: they throw when the command has no buffer
   * object, when the dtype is unknown, or when the typed array refuses its argument.
   */
  function UniformArguments(command: Json): (r: Option<UniformArgs>)
    ensures r.Some? <==>
      var b := Field(command, "buffer");
      !b.JNull? && !b.JUndefined? && Field(b, "dtype").JStr? &&
      TypedArray(Field(b, "dtype").s, Field(b, "buffer")).Some? && TypedArray(Field(b, "dtype").s, Field(b, "buffer")).value.Success?
    ensures r.Some? ==>
      var b := Field(command, "buffer");
      r.value.dtype == Field(b, "dtype").s && r.value.shape == Field(b, "shape") &&
      r.value.values == TypedArray(r.value.dtype, Field(b, "buffer")).value.value &&
      r.value.name == Stringify(Field(command, "name"))
  {
    var b := Field(command, "buffer");
    if b.JNull? || b.JUndefined? then None
    else
      var dtype := Field(b, "dtype");
      if !dtype.JStr? then None
      else
        var v := TypedArray(dtype.s, Field(b, "buffer"));
        if v.None? || v.value.Failure? then None else Some(UniformArgs(Stringify(Field(command, "name")), dtype.s, Field(b, "shape"), v.value.value))
  }

  /**
   * `uniform` and `uniformMatrix`: ignored without a bound program; otherwise the
   * arguments are evaluated (which may throw) and handed to the bound program's
   * `setUniform` or `setUniformMatrix`, which looks the name up and uploads.
   */
  function UniformStep(s: Scene, m: Machine, command: Json, matrix: bool): (r: Outcome)
    requires m.Fits(s) && s.gpu.Some?
  {
    if m.program.None? then Outcome(m, false)
    else
      var args := UniformArguments(command);
      if args.None? then Outcome(m, true)
      else
        var i := m.program.value;
        var found := Program.LookUp(m.programs[i], s.gpu.value, args.value.name);
        if found.None? then Outcome(m, true)
        else
          var (p, loc) := found.value;
          var threw := loc.Some? && Program.ShapeThrows(args.value.shape);
          var dims := Program.Dims(args.value.shape);
          var values := Data(args.value.values);
          var cs := if threw then []
                    else if matrix then Program.MatrixCalls(loc, dims, values)
                    else Program.UniformCalls(loc, args.value.dtype, dims, values);
          Outcome(m.(calls := m.calls + cs, programs := m.programs[i := p]), threw)
  }

  /**
   * A command whose `cmd` names a known command, run with a context: the
   * fixed-function commands make their one call, the others read the scene.
   */
  function Dispatch(s: Scene, m: Machine, command: Json, kind: Kind): (r: Outcome)
    requires m.Fits(s) && s.gpu.Some?
    ensures r.state.Fits(s) && |r.state.programs| == |m.programs| && m.calls <= r.state.calls
  {
    var fixed := FixedCall(command, kind);
    if fixed.Some? then Outcome(m.(calls := m.calls + [fixed.value]), false)
    else match kind
      case BindBufferCmd => Outcome(BindBufferStep(s, m, command), false)
      case BindVertexArrayCmd => Outcome(BindVertexArrayStep(s, m, command), false)
      case BufferDataCmd => Outcome(BufferDataStep(s, m, command), false)
      case UseProgramCmd => UseProgramStep(s, m, command)
      case UniformCmd => UniformStep(s, m, command, false)
      case UniformMatrixCmd => UniformStep(s, m, command, true)
  }

  /**
   * One command of `run_commands`. Reading `command.cmd` throws on null and
   * undefined; an unknown or non-string `cmd` is skipped, and so is every command
   * when there is no context.
   */
  function Step(s: Scene, m: Machine, command: Json): (r: Outcome)
    requires m.Fits(s)
    ensures r.state.Fits(s) && |r.state.programs| == |m.programs| && m.calls <= r.state.calls
  {
    if Prop(command, "cmd").Failure? then Outcome(m, true)
    else if s.gpu.None? then Outcome(m, false)
    else
      var kind := KindOf(command);
      if kind.None? then Outcome(m, false) else Dispatch(s, m, command, kind.value)
  }

  /**
   * The commands run in order; the first that throws ends the batch, the effects of
   * the commands before it remaining.
   */
  function Run(s: Scene, m: Machine, commands: seq<Json>): (r: Outcome)
    requires m.Fits(s)
    ensures r.state.Fits(s) && |r.state.programs| == |m.programs| && m.calls <= r.state.calls
    decreases |commands|, 1
  {
    if |commands| == 0 then Outcome(m, false) else RunLast(s, m, commands)
  }

  /** A non-empty batch: its front runs first, then its last command unless the front threw. */
  function RunLast(s: Scene, m: Machine, commands: seq<Json>): (r: Outcome)
    requires m.Fits(s) && |commands| > 0
    ensures r.state.Fits(s) && |r.state.programs| == |m.programs| && m.calls <= r.state.calls
    decreases |commands|, 0
  {
    var o := Run(s, m, commands[..|commands| - 1]);
    if o.threw then o else Step(s, o.state, commands[|commands| - 1])
  }

  /** A batch that has not thrown goes on with the next command. */
  lemma RunExtends(s: Scene, m: Machine, front: seq<Json>, command: Json)
    requires m.Fits(s) && !Run(s, m, front).threw
    ensures Run(s, m, front + [command]) == Step(s, Run(s, m, front).state, command)
  {
    var batch := front + [command];
    assert batch[..|batch| - 1] == front;
  }

  /** The first `i + 1` items of a list are its first `i` and then item `i`. */
  lemma TakeNext<T>(xs: seq<T>, i: nat)
    requires i < |xs|
    ensures xs[..i + 1] == xs[..i] + [xs[i]]
  {
  }

  /** `RunExtends` for the first `i + 1` commands of a list. */
  lemma RunPrefixExtends(s: Scene, m: Machine, commands: seq<Json>, i: nat)
    requires m.Fits(s) && i < |commands| && !Run(s, m, commands[..i]).threw
    ensures Run(s, m, commands[..i + 1]) == Step(s, Run(s, m, commands[..i]).state, commands[i])
  {
    TakeNext(commands, i);
    RunExtends(s, m, commands[..i], commands[i]);
  }

  /** Once a command has thrown, the commands after it change nothing. */
  lemma {:induction false} RunStopsAtThrow(s: Scene, m: Machine, a: seq<Json>, b: seq<Json>)
    requires m.Fits(s)
    requires Run(s, m, a).threw
    ensures Run(s, m, a + b) == Run(s, m, a)
    decreases |b|
  {
    if |b| == 0 {
      assert a + b == a;
    } else {
      var b' := b[..|b| - 1];
      assert (a + b)[..|a + b| - 1] == a + b';
      RunStopsAtThrow(s, m, a, b');
    }
  }

  /** A batch that did not throw is continued by the next: running `a + b` runs `b` from where `a` left off. */
  lemma {:induction false} RunSplits(s: Scene, m: Machine, a: seq<Json>, b: seq<Json>)
    requires m.Fits(s)
    requires !Run(s, m, a).threw
    ensures Run(s, m, a + b) == Run(s, Run(s, m, a).state, b)
    decreases |b|
  {
    if |b| == 0 {
      assert a + b == a;
    } else {
      var b' := b[..|b| - 1];
      assert (a + b)[..|a + b| - 1] == a + b';
      assert (a + b)[|a + b| - 1] == b[|b| - 1];
      RunSplits(s, m, a, b');
    }
  }

  /** The calls a batch of fixed-function commands makes: one per command, in order. */
  function FixedCalls(commands: seq<Json>): (r: seq<Call>)
    requires forall i | 0 <= i < |commands| :: IsFixed(commands[i])
    ensures |r| == |commands|
  {
    if |commands| == 0 then []
    else
      var c := commands[|commands| - 1];
      assert IsFixed(c);
      FixedCalls(commands[..|commands| - 1]) + [FixedCall(c, KindOf(c).value).value]
  }

  /**
   * A batch of fixed-function and draw commands never throws and only makes its
   * calls, one per command in order: the bindings, programs and console are left as
   * they were.
   */
  lemma {:induction false} FixedBatch(s: Scene, m: Machine, commands: seq<Json>)
    requires m.Fits(s) && s.gpu.Some?
    requires forall i | 0 <= i < |commands| :: IsFixed(commands[i])
    ensures Run(s, m, commands) == Outcome(m.(calls := m.calls + FixedCalls(commands)), false)
    decreases |commands|
  {
    if |commands| == 0 {
      assert m.calls + [] == m.calls;
    } else {
      var front := commands[..|commands| - 1];
      FixedBatch(s, m, front);
      var c := commands[|commands| - 1];
      assert m.calls + FixedCalls(front) + [FixedCall(c, KindOf(c).value).value]
        == m.calls + FixedCalls(commands);
    }
  }

  /**
   * Binding a registered program uses its program object and then uploads the
   * view-projection matrix as a 4x4 matrix, untransposed, to its `ViewProjection`
   * uniform, whenever the program has one; the lookup is cached. A program never
   * linked is bound and used as null, and the lookup then throws.
   */
  lemma UseProgramUploadsViewProjection(s: Scene, m: Machine, command: Json, i: nat)
    requires m.Fits(s) && s.gpu.Some?
    requires Has(command, "cmd", JStr("useProgram")) && Has(command, "program", JNum(i as real)) && i < |m.programs|
    ensures var p := m.programs[i];
      var r := Step(s, m, command);
      r.state.program == Some(i) && (r.threw <==> p.program.None?) &&
      (p.program.None? ==> r.state == m.(calls := m.calls + [Call(useProgram, [Object(None)])], program := Some(i))) &&
      (p.program.Some? ==>
        var loc := s.gpu.value.uniformLocation(p.program.value, "ViewProjection");
        r.state.programs[i] == Program.LookUp(p, s.gpu.value, "ViewProjection").value.0 &&
        r.state.calls == m.calls + [Call(useProgram, [Object(p.program)])] +
          (if loc.Some? then [Call(uniformMatrix(4, 4), [Loc(loc), Flag(false), Floats(s.viewProjection)])] else []))
  {
    assert ArrayIndex(Field(command, "program"), |m.programs|) == Some(i);
    CommandOf(12);
    FourByFourDims();
  }

  /** The view-projection upload's shape reads as a 4×4 matrix. */
  lemma FourByFourDims()
    ensures Program.Dims(FourByFour) == [4, 4]
  {
    var d := Program.Dims(FourByFour);
    assert |d| == 2;
    assert d[0] == 4 && d[1] == 4;
  }

  /**
   * The `bufferData` command never uploads anything: a registered buffer is bound to
   * ARRAY_BUFFER and given an undefined data store declared DYNAMIC_DRAW, whatever
   * the command's fields say.
   */
  lemma BufferDataUploadsNothing(s: Scene, m: Machine, command: Json, i: nat)
    requires m.Fits(s) && s.gpu.Some?
    requires Has(command, "cmd", JStr("bufferData")) && Has(command, "buffer", JNum(i as real)) && i < |s.buffers|
    ensures Step(s, m, command) == Outcome(m.(calls := m.calls + [
      Call(bindBuffer, [Enum(ARRAY_BUFFER), Object(s.buffers[i])]),
      Call(bufferData, [Enum(ARRAY_BUFFER), Val(JUndefined), Enum(DYNAMIC_DRAW)])]), false)
  {
    CommandOf(2);
    assert ArrayIndex(Field(command, "buffer"), |s.buffers|) == Some(i);
  }

  /**
   * The host's `buffer_data` names its command under 'type' rather than 'cmd', so
   * this interpreter skips it.
   */
  lemma HostBufferDataIgnored(s: Scene, m: Machine, target: string, src: HostArrayBuffer.NdArray, usage: string)
    requires m.Fits(s)
    ensures Step(s, m, HostViewer.BufferDataCommand(target, src, usage)) == Outcome(m, false)
  {
    var c := HostViewer.BufferDataCommand(target, src, usage);
    assert Field(c, "cmd") == JUndefined;
  }

  /**
   * Without a bound program the uniform commands are skipped before any of their
   * fields is read, so even a command without an array neither throws nor calls.
   */
  lemma UniformsNeedABoundProgram(s: Scene, m: Machine, command: Json)
    requires m.Fits(s) && m.program.None?
    requires Has(command, "cmd", JStr("uniform")) || Has(command, "cmd", JStr("uniformMatrix"))
    ensures Step(s, m, command) == Outcome(m, false)
  {
    CommandOf(13);
    CommandOf(14);
  }

  /**
   * Without a context a batch changes nothing, and throws exactly when one of its
   * commands is null or undefined (reading its `cmd` is all that still happens).
   */
  lemma {:induction false} NoContextOnlyThrows(s: Scene, m: Machine, commands: seq<Json>)
    requires m.Fits(s) && s.gpu.None?
    ensures Run(s, m, commands) ==
      Outcome(m, exists i | 0 <= i < |commands| :: commands[i].JNull? || commands[i].JUndefined?)
    decreases |commands|
  {
    if |commands| > 0 {
      var front := commands[..|commands| - 1];
      NoContextOnlyThrows(s, m, front);
      if exists i | 0 <= i < |commands| :: commands[i].JNull? || commands[i].JUndefined? {
        var i :| 0 <= i < |commands| && (commands[i].JNull? || commands[i].JUndefined?);
        if i < |front| {
          assert front[i] == commands[i];
        }
      } else {
        assert forall i | 0 <= i < |front| :: front[i] == commands[i];
      }
    }
  }

  /**
   * The commands replayed `times` times in a row, as several change listeners and a
   * redraw do; a throw ends the replays.
   */
  function Replays(s: Scene, m: Machine, commands: seq<Json>, times: nat): (r: Outcome)
    requires m.Fits(s)
    ensures r.state.Fits(s) && |r.state.programs| == |m.programs| && m.calls <= r.state.calls
    ensures times == 1 ==> r == Run(s, m, commands)
  {
    if times == 0 then Outcome(m, false)
    else
      var o := Replays(s, m, commands, times - 1);
      if o.threw then o else Run(s, o.state, commands)
  }

  // ---------------------------------------------------------------------------
  // The model object.
  // ---------------------------------------------------------------------------

  /** `GLBuffer` of src/glbuffer.ts, as far as the command replay uses it: its uid and its buffer object. */
  class GLBuffer {
    const uid: int
    const buffer: Option<Handle>

    constructor(uid: int, buffer: Option<Handle>)
      ensures this.uid == uid && this.buffer == buffer
    {
      this.uid := uid;
      this.buffer := buffer;
    }

    /** `update_buffer(gl, is_dynamic, data)`. */
    method UpdateBuffer(ctx: Context, isDynamic: Json, data: Arg)
      modifies ctx
      ensures ctx.calls == old(ctx.calls) + UpdateCalls(buffer, isDynamic, data)
    {
      ctx.Issue(bindBuffer, [Enum(ARRAY_BUFFER), Object(buffer)]);
      ctx.Issue(bufferData, [Enum(ARRAY_BUFFER), data, Enum(if Truthy(isDynamic) then DYNAMIC_DRAW else STATIC_DRAW)]);
    }
  }

  /** The console error of a browser without WebGL2. */
  const NoContextError := "could not create a webgl2 context, this is not supported in your browser"

  /** The call `resizeCanvas` makes: the viewport covers the whole canvas. */
  function Viewport(width: nat, height: nat): Call
  {
    Call(viewport, [Num(0), Num(0), Num(width), Num(height)])
  }

  /**
   * The projection `resizeCanvas` sets: a 50-degree vertical field of view (whose
   * half-angle tangent is `tanHalfFov`), the canvas's aspect ratio, near plane 1 and
   * far plane 5000.
   */
  function CanvasProjection(width: nat, height: nat, tanHalfFov: real): Mat4
    requires width > 0 && height > 0 && tanHalfFov != 0.0
  {
    ProjectionMatrix(tanHalfFov, width as real / height as real, 1.0, 5000.0)
  }

  /**
   * `GLModel`: the context (null when the browser has no WebGL2), the three
   * registries, the command list of the last message, the bound program and vertex
   * array (by uid: the registries only grow, so a position names one object for
   * good), the widget attributes it reads, the camera matrices and the console.
   */
  class GLModel {
    const ctx: Context?
    const trig: Camera.Trig
    var programs: seq<Program.GLProgram>
    var buffers: seq<GLBuffer>
    var vertexArrays: seq<VertexArray.GLVertexArray>
    var commands: seq<Json>
    var boundProgram: Option<nat>
    var boundVertexArray: Option<nat>
    var console: seq<string>
    var shaderMatrixMajor: string
    var cameraPos: Vec3
    var cameraYaw: real
    var cameraPitch: real
    var mouseSpeed: real
    var moveSpeed: real
    var moveKeys: string
    var projection: Mat4
    var camera: Mat4
    var view: Mat4
    var viewProjection: Option<Mat4>

    /**
     * Every registry entry sits at the position of its uid (which `register_*` demands),
     * the bindings name registered entries, and the trigonometry is real.
     */
    ghost predicate Valid()
      reads this
    {
      (forall i | 0 <= i < |programs| :: programs[i].uid == i) &&
      (forall i | 0 <= i < |buffers| :: buffers[i].uid == i) &&
      (forall i | 0 <= i < |vertexArrays| :: vertexArrays[i].uid == i) &&
      (boundProgram.Some? ==> boundProgram.value < |programs|) &&
      (boundVertexArray.Some? ==> boundVertexArray.value < |vertexArrays|) &&
      trig.Valid()
    }

    /** The pose the camera attributes describe. */
    function Pose(): Camera.Pose
      requires trig.Valid()
      reads this`cameraPos, this`cameraYaw, this`cameraPitch
    {
      Camera.PoseOf(trig, cameraPos, cameraYaw, cameraPitch)
    }

    /** The buffer object of each registered buffer. */
    function BufferObjects(): seq<Option<Handle>>
      reads this`buffers
    {
      var bs := buffers;
      seq(|bs|, i requires 0 <= i < |bs| => bs[i].buffer)
    }

    /** The vertex array object of each registered vertex array. */
    function VertexArrayObjects(): seq<Option<Handle>>
      reads this`vertexArrays
    {
      var vs := vertexArrays;
      seq(|vs|, i requires 0 <= i < |vs| => vs[i].vao)
    }

    /** The state of each registered program. */
    function ProgramStates(): seq<Program.ProgramState>
      reads this`programs, programs
    {
      var ps := programs;
      seq(|ps|, i requires 0 <= i < |ps| reads ps => ps[i].State())
    }

    /** What a replay changes, as a value (no calls without a context). */
    function Snapshot(): Machine
      reads this`console, this`boundProgram, this`boundVertexArray, this`programs, ctx, programs
    {
      Machine(if ctx == null then [] else ctx.calls, console, boundProgram, boundVertexArray, ProgramStates())
    }

    /** What a replay uploading `vp` reads, as a value. */
    function SceneFor(vp: seq<real>): Scene
      reads this`buffers, this`vertexArrays
    {
      Scene(if ctx == null then None else Some(ctx.gpu), BufferObjects(), VertexArrayObjects(), vp)
    }

    /**
     * What a replay reads once `update_camera` has run: the scene with the
     * view-projection matrix uploaded (transposed for row-major shaders).
     */
    function ReplayScene(): Scene
      requires viewProjection.Some?
      reads this`buffers, this`vertexArrays, this`viewProjection, this`shaderMatrixMajor
    {
      SceneFor(Camera.Uploaded(viewProjection.value, shaderMatrixMajor == "row_major"))
    }

    /** What a replay from the camera at pose (pos, yaw, pitch) reads, as a value. */
    function SceneAt(pos: Vec3, yaw: real, pitch: real): Scene
      requires trig.Valid()
      reads this`buffers, this`vertexArrays, this`projection, this`shaderMatrixMajor
    {
      SceneFor(Camera.Uploaded(Camera.ViewProjection(projection, Camera.PoseOf(trig, pos, yaw, pitch)), shaderMatrixMajor == "row_major"))
    }

    /**
     * `initialize`: the context the canvas gave (or the console error), the widget
     * attributes at their defaults, the canvas sized, and the camera matrix the
     * translation to the default position.
     */
    constructor(ctx: Context?, trig: Camera.Trig, width: nat, height: nat, tanHalfFov: real)
      requires trig.Valid() && width > 0 && height > 0 && tanHalfFov != 0.0
      modifies ctx
      ensures this.ctx == ctx && this.trig == trig && Valid()
      ensures programs == [] && buffers == [] && vertexArrays == [] && commands == []
      ensures shaderMatrixMajor == "row_major" && cameraPos == [0.0, 50.0, 200.0] && cameraYaw == 0.0 && cameraPitch == 0.0
      ensures mouseSpeed == 1.0 && moveSpeed == 1.0 && moveKeys == "wasd"
      ensures Snapshot() == Machine(if ctx == null then [] else old(ctx.calls) + [Viewport(width, height)],
                                    if ctx == null then [NoContextError] else [], None, None, [])
      ensures projection == CanvasProjection(width, height, tanHalfFov)
      ensures camera == Translation(cameraPos[0], cameraPos[1], cameraPos[2]) && Det(camera) == 1.0 && view == Inverse(camera)
      ensures viewProjection.None?
    {
      this.ctx := ctx;
      this.trig := trig;
      programs := [];
      buffers := [];
      vertexArrays := [];
      commands := [];
      boundProgram := None;
      boundVertexArray := None;
      console := if ctx == null then [NoContextError] else [];
      shaderMatrixMajor := "row_major";
      var pos: Vec3 := [0.0, 50.0, 200.0];
      cameraPos := pos;
      cameraYaw := 0.0;
      cameraPitch := 0.0;
      mouseSpeed := 1.0;
      moveSpeed := 1.0;
      moveKeys := "wasd";
      projection := CanvasProjection(width, height, tanHalfFov);
      var translation := Translation(pos[0], pos[1], pos[2]);
      Camera.TranslationIsInvertible(pos[0], pos[1], pos[2]);
      camera := translation;
      view := Inverse(translation);
      viewProjection := None;
      new;
      if ctx != null {
        ctx.Issue(viewport, [Num(0), Num(0), Num(width), Num(height)]);
      }
    }

    /** `resizeCanvas`: the viewport follows the canvas, and so does the projection. */
    method ResizeCanvas(width: nat, height: nat, tanHalfFov: real)
      requires width > 0 && height > 0 && tanHalfFov != 0.0
      modifies this`projection, ctx
      ensures Snapshot() == old(Snapshot()).(calls := old(Snapshot()).calls + if ctx == null then [] else [Viewport(width, height)])
      ensures projection == CanvasProjection(width, height, tanHalfFov)
    {
      if ctx != null {
        ctx.Issue(viewport, [Num(0), Num(0), Num(width), Num(height)]);
      }
      projection := CanvasProjection(width, height, tanHalfFov);
    }

    /** `register_program`: refused (the source throws) unless the uid is the next position. */
    method RegisterProgram(p: Program.GLProgram) returns (ok: bool)
      requires Valid()
      modifies this`programs
      ensures Valid()
      ensures ok <==> p.uid == |old(programs)|
      ensures programs == (if ok then old(programs) + [p] else old(programs))
    {
      ok := p.uid == |programs|;
      if ok {
        programs := programs + [p];
      }
    }

    /** `register_buffer`, as `register_program`. */
    method RegisterBuffer(b: GLBuffer) returns (ok: bool)
      requires Valid()
      modifies this`buffers
      ensures Valid()
      ensures ok <==> b.uid == |old(buffers)|
      ensures buffers == (if ok then old(buffers) + [b] else old(buffers))
    {
      ok := b.uid == |buffers|;
      if ok {
        buffers := buffers + [b];
      }
    }

    /** `register_vao`, as `register_program`. */
    method RegisterVertexArray(v: VertexArray.GLVertexArray) returns (ok: bool)
      requires Valid()
      modifies this`vertexArrays
      ensures Valid()
      ensures ok <==> v.uid == |old(vertexArrays)|
      ensures vertexArrays == (if ok then old(vertexArrays) + [v] else old(vertexArrays))
    {
      ok := v.uid == |vertexArrays|;
      if ok {
        vertexArrays := vertexArrays + [v];
      }
    }

    /** `handle_custom_messages(commands)`: the message replaces the command list, which is replayed. */
    method HandleCustomMessages(msg: seq<Json>) returns (threw: bool)
      requires Valid()
      modifies this`commands, this`camera, this`view, this`viewProjection, this`boundProgram, this`boundVertexArray
      modifies this`console, ctx, programs
      ensures Valid() && commands == msg && viewProjection == Some(Camera.ViewProjection(old(projection), old(Pose())))
      ensures Outcome(Snapshot(), threw) == Run(ReplayScene(), old(Snapshot()), msg)
    {
      ghost var p := Pose();
      ghost var m := Snapshot();
      commands := msg;
      threw := RunCommands(p, m);
    }

    /**
     * A `set` of `camera_pos`, `camera_yaw` or `camera_pitch`: when a value changes,
     * the change listener replays the commands from the new camera.
     */
    method SetCamera(pos: Vec3, yaw: real, pitch: real) returns (changed: bool, threw: bool)
      requires Valid()
      modifies this`cameraPos, this`cameraYaw, this`cameraPitch, this`camera, this`view, this`viewProjection
      modifies this`boundProgram, this`boundVertexArray, this`console, ctx, programs
      ensures Valid() && cameraPos == pos && cameraYaw == yaw && cameraPitch == pitch
      ensures changed == (pos != old(cameraPos) || yaw != old(cameraYaw) || pitch != old(cameraPitch))
      ensures changed ==> viewProjection == Some(Camera.ViewProjection(old(projection), Camera.PoseOf(trig, pos, yaw, pitch))) &&
                          Outcome(Snapshot(), threw) == Run(ReplayScene(), old(Snapshot()), commands)
      ensures !changed ==> Snapshot() == old(Snapshot()) && !threw && viewProjection == old(viewProjection)
      ensures projection == old(projection) && buffers == old(buffers) && vertexArrays == old(vertexArrays) && programs == old(programs) && shaderMatrixMajor == old(shaderMatrixMajor) && commands == old(commands)
    {
      ghost var m := Snapshot();
      changed := pos != cameraPos || yaw != cameraYaw || pitch != cameraPitch;
      if changed {
        cameraPos, cameraYaw, cameraPitch := pos, yaw, pitch;
        threw := RunCommands(Camera.PoseOf(trig, pos, yaw, pitch), m);
      } else {
        threw := false;
      }
    }

    /**
     * The model's part of a `redraw` frame: while keys are held the camera takes
     * one step, and a changed position replays the commands (`stepThrew` says
     * whether that replay threw); unless it threw, the commands are replayed again.
     */
    method Frame(dirs: seq<bool>) returns (moved: bool, stepThrew: bool, threw: bool, ghost stepped: Machine)
      requires Valid() && |dirs| == 4
      modifies this`cameraPos, this`cameraYaw, this`cameraPitch, this`camera, this`view, this`viewProjection
      modifies this`boundProgram, this`boundVertexArray, this`console, ctx, programs
      ensures Valid() && cameraYaw == old(cameraYaw) && cameraPitch == old(cameraPitch)
      ensures cameraPos == FramePosition(old(cameraPos), old(camera), dirs, moveSpeed)
      ensures moved == (cameraPos != old(cameraPos))
      ensures viewProjection == Some(Camera.ViewProjection(old(projection), Pose()))
      ensures Outcome(stepped, stepThrew) == if moved then Run(ReplayScene(), old(Snapshot()), commands) else Outcome(old(Snapshot()), false)
      ensures Outcome(Snapshot(), threw) == if stepThrew then Outcome(stepped, true) else Run(ReplayScene(), stepped, commands)
      ensures projection == old(projection) && buffers == old(buffers) && vertexArrays == old(vertexArrays) && programs == old(programs) && shaderMatrixMajor == old(shaderMatrixMajor) && commands == old(commands)
    {
      moved, stepThrew := MoveCamera(dirs);
      stepped := Snapshot();
      label Stepped:
      threw := stepThrew;
      if !threw {
        threw := RunCommands(Pose(), stepped);
        assert moved ==> ReplayScene() == old@Stepped(ReplayScene());
      }
    }

    /** The step of a `redraw` frame: while keys are held the camera moves, and a changed position replays the commands. */
    method MoveCamera(dirs: seq<bool>) returns (moved: bool, threw: bool)
      requires Valid() && |dirs| == 4
      modifies this`cameraPos, this`cameraYaw, this`cameraPitch, this`camera, this`view, this`viewProjection
      modifies this`boundProgram, this`boundVertexArray, this`console, ctx, programs
      ensures Valid() && cameraYaw == old(cameraYaw) && cameraPitch == old(cameraPitch)
      ensures cameraPos == FramePosition(old(cameraPos), old(camera), dirs, moveSpeed)
      ensures moved == (cameraPos != old(cameraPos))
      ensures moved ==> viewProjection == Some(Camera.ViewProjection(old(projection), Pose())) &&
                        Outcome(Snapshot(), threw) == Run(ReplayScene(), old(Snapshot()), commands)
      ensures !moved ==> Snapshot() == old(Snapshot()) && !threw
      ensures projection == old(projection) && buffers == old(buffers) && vertexArrays == old(vertexArrays) && programs == old(programs) && shaderMatrixMajor == old(shaderMatrixMajor) && commands == old(commands)
    {
      moved, threw := false, false;
      if Moving(dirs) {
        moved, threw := SetCamera(MovedPosition(cameraPos, camera, dirs, moveSpeed), cameraYaw, cameraPitch);
      }
    }

    /**
     * The two attribute sets of `onMouseMove`: the yaw, then the pitch, each
     * replaying the commands when it changes the camera; a throw in the first
     * replay skips the second set.
     */
    method Turn(yaw: real, pitch: real) returns (threw: bool, ghost yawThrew: bool, ghost turned: Machine)
      requires Valid()
      modifies this`cameraPos, this`cameraYaw, this`cameraPitch, this`camera, this`view, this`viewProjection
      modifies this`boundProgram, this`boundVertexArray, this`console, ctx, programs
      ensures Valid() && cameraPos == old(cameraPos) && cameraYaw == yaw
      ensures commands == old(commands) && programs == old(programs)
      ensures cameraPitch == if yawThrew then old(cameraPitch) else pitch
      ensures Outcome(turned, yawThrew) ==
        if yaw != old(cameraYaw) then Run(SceneAt(cameraPos, yaw, old(cameraPitch)), old(Snapshot()), commands) else Outcome(old(Snapshot()), false)
      ensures Outcome(Snapshot(), threw) ==
        if yawThrew || pitch == old(cameraPitch) then Outcome(turned, yawThrew) else Run(SceneAt(cameraPos, yaw, pitch), turned, commands)
    {
      var changed;
      changed, threw := SetCamera(cameraPos, yaw, cameraPitch);
      yawThrew, turned := threw, Snapshot();
      if !threw {
        changed, threw := SetCamera(cameraPos, cameraYaw, pitch);
      }
    }

    /**
     * `run_commands`: update the camera, compute the view-projection matrix (its
     * transpose for row-major shaders) and replay the command list, which stops at
     * the first command that throws.
     */
    method RunCommands(ghost p: Camera.Pose, ghost m: Machine) returns (threw: bool)
      requires Valid() && p == Pose() && m == Snapshot()
      modifies this`camera, this`view, this`viewProjection, this`boundProgram, this`boundVertexArray, this`console
      modifies ctx, programs
      ensures Valid() && viewProjection == Some(Camera.ViewProjection(old(projection), p))
      ensures Outcome(Snapshot(), threw) == Run(ReplayScene(), m, commands)
      ensures cameraPos == old(cameraPos) && cameraYaw == old(cameraYaw) && cameraPitch == old(cameraPitch) && projection == old(projection)
      ensures buffers == old(buffers) && vertexArrays == old(vertexArrays) && programs == old(programs) && shaderMatrixMajor == old(shaderMatrixMajor) && commands == old(commands)
    {
      UpdateCamera(p);
      var vp := Camera.Uploaded(viewProjection.value, shaderMatrixMajor == "row_major");
      threw := Replay(vp, ReplayScene(), m);
    }

    /** The `forEach` of `run_commands`: the commands in order, until one throws. */
    method Replay(vp: seq<real>, ghost s: Scene, ghost m: Machine) returns (threw: bool)
      requires Valid() && s == SceneFor(vp) && m == Snapshot()
      modifies this`boundProgram, this`boundVertexArray, this`console, ctx, programs
      ensures Valid() && SceneFor(vp) == s
      ensures Outcome(Snapshot(), threw) == Run(s, m, commands)
      ensures cameraPos == old(cameraPos) && cameraYaw == old(cameraYaw) && cameraPitch == old(cameraPitch) && projection == old(projection)
      ensures buffers == old(buffers) && vertexArrays == old(vertexArrays) && programs == old(programs) && shaderMatrixMajor == old(shaderMatrixMajor) && commands == old(commands)
      ensures viewProjection == old(viewProjection)
    {
      threw := false;
      var i := 0;
      while i < |commands| && !threw
        invariant 0 <= i <= |commands|
        invariant Valid() && SceneFor(vp) == s && m.Fits(s)
        invariant Outcome(Snapshot(), threw) == Run(s, m, commands[..i])
        decreases |commands| - i
      {
        threw := ReplayNext(vp, i, s, m);
        i := i + 1;
      }
      if threw {
        RunStopsAtThrow(s, m, commands[..i], commands[i..]);
        assert commands[..i] + commands[i..] == commands;
      } else {
        assert commands[..i] == commands;
      }
    }

    /** One turn of the `forEach`, after commands that did not throw. */
    method ReplayNext(vp: seq<real>, i: nat, ghost s: Scene, ghost m: Machine) returns (threw: bool)
      requires Valid() && s == SceneFor(vp) && m.Fits(s) && i < |commands|
      requires Outcome(Snapshot(), false) == Run(s, m, commands[..i])
      modifies this`boundProgram, this`boundVertexArray, this`console, ctx, programs
      ensures Valid()
      ensures Outcome(Snapshot(), threw) == Run(s, m, commands[..i + 1])
    {
      RunPrefixExtends(s, m, commands, i);
      threw := RunCommand(commands[i], vp, s, Snapshot());
    }

    /** `update_camera`: the camera matrix of the pose, its inverse, and the view-projection matrix. */
    method UpdateCamera(ghost p: Camera.Pose)
      requires Valid() && p == Pose()
      modifies this`camera, this`view, this`viewProjection
      ensures camera == Camera.CameraMatrix(p) && view == Camera.ViewMatrix(p)
      ensures viewProjection == Some(Camera.ViewProjection(old(projection), p))
    {
      var pose := Pose();
      camera, view, viewProjection := Camera.CameraMatrix(pose), Camera.ViewMatrix(pose), Some(Camera.ViewProjection(projection, pose));
    }

    /** One command of `run_commands`, uploading `vp` to a newly bound program. */
    method RunCommand(command: Json, vp: seq<real>, ghost s: Scene, ghost m: Machine) returns (threw: bool)
      requires Valid() && s == SceneFor(vp) && m == Snapshot()
      modifies this`boundProgram, this`boundVertexArray, this`console, ctx, programs
      ensures Valid()
      ensures Outcome(Snapshot(), threw) == Step(s, m, command)
    {
      if Prop(command, "cmd").Failure? {
        return true;
      }
      var kind := KindOf(command);
      if ctx == null || kind.None? {
        return false;
      }
      threw := DispatchCommand(command, kind.value, vp, s, m);
    }

    /** A command of a known kind, run with a context. */
    method DispatchCommand(command: Json, kind: Kind, vp: seq<real>, ghost s: Scene, ghost m: Machine) returns (threw: bool)
      requires Valid() && ctx != null && s == SceneFor(vp) && m == Snapshot()
      modifies this`boundProgram, this`boundVertexArray, this`console, ctx, programs
      ensures Valid()
      ensures Outcome(Snapshot(), threw) == Dispatch(s, m, command, kind)
    {
      var fixed := FixedCall(command, kind);
      threw := false;
      if fixed.Some? {
        ctx.Issue(fixed.value.fn, fixed.value.args);
      } else {
        match kind
        case BindBufferCmd => BindBufferCommand(command, vp, s);
        case BindVertexArrayCmd => BindVertexArrayCommand(command, vp, s);
        case BufferDataCmd => BufferDataCommand(command, vp, s);
        case UseProgramCmd => threw := UseProgramCommand(command, vp, s);
        case UniformCmd => threw := UniformCommand(command, false, vp, s);
        case UniformMatrixCmd => threw := UniformCommand(command, true, vp, s);
      }
    }

    /** The `bindBuffer` case. */
    method BindBufferCommand(command: Json, vp: seq<real>, ghost s: Scene)
      requires ctx != null && s == SceneFor(vp)
      modifies this`console, ctx
      ensures Snapshot() == BindBufferStep(s, old(Snapshot()), command)
    {
      var i := ArrayIndex(Field(command, "buffer"), |buffers|);
      var buffer := if i.Some? then buffers[i.value].buffer else None;
      var target := TargetOf(Field(command, "target"));
      console := console + Logged(target);
      ctx.Issue(bindBuffer, [Enum(target.value), Object(buffer)]);
    }

    /** The `bindVertexArray` case. */
    method BindVertexArrayCommand(command: Json, vp: seq<real>, ghost s: Scene)
      requires ctx != null && s == SceneFor(vp)
      modifies this`boundVertexArray, ctx
      ensures boundVertexArray.Some? ==> boundVertexArray.value < |vertexArrays|
      ensures Snapshot() == BindVertexArrayStep(s, old(Snapshot()), command)
    {
      boundVertexArray := ArrayIndex(Field(command, "vao"), |vertexArrays|);
      if boundVertexArray.Some? {
        ctx.Issue(bindVertexArray, [Object(vertexArrays[boundVertexArray.value].vao)]);
      } else {
        ctx.Issue(bindVertexArray, [Object(None)]);
      }
    }

    /** The `bufferData` case. */
    method BufferDataCommand(command: Json, vp: seq<real>, ghost s: Scene)
      requires ctx != null && s == SceneFor(vp)
      modifies ctx
      ensures Snapshot() == BufferDataStep(s, old(Snapshot()), command)
    {
      var i := ArrayIndex(Field(command, "buffer"), |buffers|);
      if i.Some? {
        buffers[i.value].UpdateBuffer(ctx, command, Val(JUndefined));
      }
    }

    /** The `useProgram` case. */
    method UseProgramCommand(command: Json, vp: seq<real>, ghost s: Scene) returns (threw: bool)
      requires ctx != null && Valid() && s == SceneFor(vp)
      modifies this`boundProgram, ctx, programs
      ensures Valid()
      ensures Outcome(Snapshot(), threw) == UseProgramStep(s, old(Snapshot()), command)
    {
      var i := ArrayIndex(Field(command, "program"), |programs|);
      boundProgram := i;
      threw := false;
      if i.None? {
        ctx.Issue(useProgram, [Object(None)]);
      } else {
        var p := programs[i.value];
        ctx.Issue(useProgram, [Object(p.program)]);
        threw := p.SetUniformMatrix(ctx, "ViewProjection", FourByFour, Floats(vp));
        OthersUntouched(i.value);
      }
    }

    /** The `uniform` and `uniformMatrix` cases. */
    method UniformCommand(command: Json, matrix: bool, vp: seq<real>, ghost s: Scene) returns (threw: bool)
      requires ctx != null && Valid() && s == SceneFor(vp)
      modifies ctx, programs
      ensures Valid()
      ensures Outcome(Snapshot(), threw) == UniformStep(s, old(Snapshot()), command, matrix)
    {
      if boundProgram.None? {
        return false;
      }
      var args := UniformArguments(command);
      if args.None? {
        return true;
      }
      var i := boundProgram.value;
      var p := programs[i];
      if matrix {
        threw := p.SetUniformMatrix(ctx, args.value.name, args.value.shape, Data(args.value.values));
      } else {
        threw := p.SetUniform(ctx, args.value.name, args.value.dtype, args.value.shape, Data(args.value.values));
      }
      OthersUntouched(i);
    }

    /** When only the program at `i` may have changed, the program states differ at `i` at most. */
    twostate lemma OthersUntouched(i: nat)
      requires old(Valid()) && i < |old(programs)| && programs == old(programs)
      requires forall k | 0 <= k < |programs| && k != i :: unchanged(programs[k])
      ensures ProgramStates() == old(ProgramStates())[i := programs[i].State()]
    {
    }
  }

  // ---------------------------------------------------------------------------
  // The view: mouse and keyboard move the camera.
  // ---------------------------------------------------------------------------

  /** The angle `onMouseMove` sets: the old one less the mouse movement times 0.2 times the speed. */
  function TurnedAngle(angle: real, movement: real, speed: real): real
  {
    angle - movement * 0.2 * speed
  }

  /** Some move key is held. */
  predicate Moving(dirs: seq<bool>)
    requires |dirs| == 4
  {
    dirs[0] || dirs[1] || dirs[2] || dirs[3]
  }

  /**
   * `redraw`'s step: the first key moves against the camera's forward axis (its
   * third column), the third along it, the second against the side axis (its first
   * column), the fourth along it, each by `speed`.
   */
  function MovedPosition(pos: Vec3, camera: Mat4, dirs: seq<bool>, speed: real): Vec3
    requires |dirs| == 4
  {
    seq(3, k requires 0 <= k < 3 => Walk(pos, GetColumnK(camera), GetColumnI(camera), dirs, speed)[k])
  }

  /** Where a `redraw` frame leaves the camera: one step while keys are held, otherwise where it was. */
  function FramePosition(pos: Vec3, camera: Mat4, dirs: seq<bool>, speed: real): Vec3
    requires |dirs| == 4
  {
    if Moving(dirs) then MovedPosition(pos, camera, dirs, speed) else pos
  }

  /** The four steps of `redraw` along the given forward and side axes, in the order the keys are tested. */
  function Walk(pos: Vec3, forward: Vec3, side: Vec3, dirs: seq<bool>, speed: real): Vec3
    requires |dirs| == 4
  {
    StepPair(StepPair(pos, forward, dirs[0], dirs[2], speed), side, dirs[1], dirs[3], speed)
  }

  /** A step back along `axis` when `back` is held, then a step forward when `ahead` is held. */
  function StepPair(pos: Vec3, axis: Vec3, back: bool, ahead: bool, speed: real): Vec3
  {
    var p := if back then Vec3Add(pos, Vec3Scale(axis, -speed)) else pos;
    if ahead then Vec3Add(p, Vec3Scale(axis, speed)) else p
  }

  /** The displacement `d` signed by a pair of opposite keys: `d`, `-d`, or nothing when both or neither are held. */
  function Signed(plus: bool, minus: bool, d: real): real
  {
    if plus == minus then 0.0 else if plus then d else -d
  }

  /**
   * The step adds up: each coordinate moves by `speed` times the forward axis
   * weighted by the back/forward keys, plus the side axis weighted by the
   * right/left keys.
   */
  lemma MovementAddsUp(pos: Vec3, forward: Vec3, side: Vec3, dirs: seq<bool>, speed: real, k: nat)
    requires |dirs| == 4 && k < 3
    ensures Walk(pos, forward, side, dirs, speed)[k] ==
      (pos[k] + Signed(dirs[2], dirs[0], speed * forward[k])) + Signed(dirs[3], dirs[1], speed * side[k])
  {
    var p := StepPair(pos, forward, dirs[0], dirs[2], speed);
    var w := Walk(pos, forward, side, dirs, speed);
    assert p[k] == pos[k] + Signed(dirs[2], dirs[0], speed * forward[k]) by {
      StepPairAt(pos, forward, dirs[0], dirs[2], speed, k);
    }
    assert w[k] == p[k] + Signed(dirs[3], dirs[1], speed * side[k]) by {
      assert w == StepPair(p, side, dirs[1], dirs[3], speed);
      StepPairAt(p, side, dirs[1], dirs[3], speed, k);
    }
  }

  /** A pair of opposite steps moves coordinate `k` by the sign of the pair times `speed` along the axis. */
  lemma StepPairAt(pos: Vec3, axis: Vec3, back: bool, ahead: bool, speed: real, k: nat)
    requires k < 3
    ensures StepPair(pos, axis, back, ahead, speed)[k] == pos[k] + Signed(ahead, back, speed * axis[k])
  {
    var p := if back then Vec3Add(pos, Vec3Scale(axis, -speed)) else pos;
    assert p[k] == if back then pos[k] + axis[k] * -speed else pos[k] by {
      if back { StepAt(pos, axis, -speed, k); }
    }
    assert StepPair(pos, axis, back, ahead, speed)[k] == if ahead then p[k] + axis[k] * speed else p[k] by {
      if ahead { StepAt(p, axis, speed, k); }
    }
    OppositeSteps(pos[k], axis[k], speed, back, ahead);
  }

  /** One step of `amount` along `axis`, seen in coordinate `k`. */
  lemma StepAt(p: Vec3, axis: Vec3, amount: real, k: nat)
    requires k < 3
    ensures Vec3Add(p, Vec3Scale(axis, amount))[k] == p[k] + axis[k] * amount
  {
  }

  /** A step back (when `back`) then a step forward (when `ahead`) along one axis coordinate. */
  lemma OppositeSteps(x: real, axis: real, speed: real, back: bool, ahead: bool)
    ensures var y := if back then x + axis * -speed else x;
      (if ahead then y + axis * speed else y) == x + Signed(ahead, back, speed * axis)
  {
    assert axis * -speed == -(speed * axis) && axis * speed == speed * axis;
  }

  /** Opposite keys held together cancel out: the camera stays put. */
  lemma OppositeKeysCancel(pos: Vec3, camera: Mat4, dirs: seq<bool>, speed: real)
    requires |dirs| == 4 && dirs[0] == dirs[2] && dirs[1] == dirs[3]
    ensures MovedPosition(pos, camera, dirs, speed) == pos
  {
    var r := MovedPosition(pos, camera, dirs, speed);
    forall k | 0 <= k < 3
      ensures r[k] == pos[k]
    {
      MovementAddsUp(pos, GetColumnK(camera), GetColumnI(camera), dirs, speed, k);
    }
  }

  /**
   * Side steps keep the camera's height: the side axis of a camera matrix is
   * horizontal whatever the pitch.
   */
  lemma SideStepsKeepHeight(pos: Vec3, p: Camera.Pose, dirs: seq<bool>, speed: real)
    requires |dirs| == 4 && !dirs[0] && !dirs[2]
    ensures MovedPosition(pos, Camera.CameraMatrix(p), dirs, speed)[1] == pos[1]
  {
    Camera.CameraAxes(p);
    MovementAddsUp(pos, GetColumnK(Camera.CameraMatrix(p)), GetColumnI(Camera.CameraMatrix(p)), dirs, speed, 1);
  }

  /**
   * The move key `key` is: the first of the four `move_keys` characters it equals
   * (past the end of `move_keys` there is no character, and nothing matches).
   */
  function KeyIndex(keys: string, key: string): (r: Option<nat>)
    ensures r.Some? ==> r.value < 4 && r.value < |keys| && key == [keys[r.value]]
    ensures r.Some? ==> forall j | 0 <= j < r.value :: key != [keys[j]]
    ensures r.None? ==> forall j | 0 <= j < 4 && j < |keys| :: key != [keys[j]]
  {
    if |keys| > 0 && key == [keys[0]] then Some(0)
    else if |keys| > 1 && key == [keys[1]] then Some(1)
    else if |keys| > 2 && key == [keys[2]] then Some(2)
    else if |keys| > 3 && key == [keys[3]] then Some(3)
    else None
  }

  /** `onKeyDown`'s effect on the held keys. */
  function Press(dirs: seq<bool>, keys: string, key: string): (r: seq<bool>)
    requires |dirs| == 4
    ensures |r| == 4
  {
    var i := KeyIndex(keys, key);
    if i.Some? then dirs[i.value := true] else dirs
  }

  /** `onKeyUp`'s effect on the held keys. */
  function Release(dirs: seq<bool>, keys: string, key: string): (r: seq<bool>)
    requires |dirs| == 4
    ensures |r| == 4
  {
    var i := KeyIndex(keys, key);
    if i.Some? then dirs[i.value := false] else dirs
  }

  /**
   * Pressing a move key starts a move, and releasing the key undoes the press: the
   * held keys are as before when the key was not held.
   */
  lemma ReleaseUndoesPress(dirs: seq<bool>, keys: string, key: string)
    requires |dirs| == 4
    ensures KeyIndex(keys, key).Some? ==> Moving(Press(dirs, keys, key))
    ensures Release(Press(dirs, keys, key), keys, key) == Release(dirs, keys, key)
    ensures KeyIndex(keys, key).Some? && !dirs[KeyIndex(keys, key).value] ==> Release(Press(dirs, keys, key), keys, key) == dirs
  {
  }

  /**
   * `GLViewer`, the view: the mouse button and the held move keys, whether a frame
   * is requested, and how many frames were requested and drawn. At most one frame
   * is ever pending.
   */
  class GLViewer {
    const model: GLModel
    var isMouseDown: bool
    var moveDirection: seq<bool>
    var willRedraw: bool
    var requestedFrames: nat
    var drawnFrames: nat

    ghost predicate Valid()
      reads this, model
    {
      model.Valid() && |moveDirection| == 4 && requestedFrames == drawnFrames + (if willRedraw then 1 else 0)
    }

    /** `render`: nothing held, no frame pending, and the model's canvas resized. */
    constructor(model: GLModel, width: nat, height: nat, tanHalfFov: real)
      requires model.Valid() && width > 0 && height > 0 && tanHalfFov != 0.0
      modifies model`projection, model.ctx
      ensures this.model == model && Valid()
      ensures !isMouseDown && moveDirection == [false, false, false, false] && !willRedraw
      ensures requestedFrames == 0 && drawnFrames == 0
      ensures model.projection == CanvasProjection(width, height, tanHalfFov)
      ensures model.Snapshot() == old(model.Snapshot()).(calls := old(model.Snapshot()).calls +
        if model.ctx == null then [] else [Viewport(width, height)])
    {
      this.model := model;
      isMouseDown := false;
      moveDirection := [false, false, false, false];
      willRedraw := false;
      requestedFrames := 0;
      drawnFrames := 0;
      new;
      model.ResizeCanvas(width, height, tanHalfFov);
    }

    /** `requestRedraw`: a frame is requested unless one already is. */
    method RequestRedraw()
      requires Valid()
      modifies this`willRedraw, this`requestedFrames
      ensures Valid() && willRedraw
      ensures requestedFrames == old(requestedFrames) + (if old(willRedraw) then 0 else 1)
    {
      if !willRedraw {
        willRedraw := true;
        requestedFrames := requestedFrames + 1;
      }
    }

    /**
     * `redraw`, the requested frame: while keys are held the camera moves one step,
     * which (when it changes the position) makes the model's change listener replay
     * the commands, and a next frame is requested; then the commands are replayed.
     * A throw ends the frame early.
     */
    method Redraw() returns (threw: bool)
      requires Valid() && willRedraw
      modifies this`willRedraw, this`requestedFrames, this`drawnFrames
      modifies model`cameraPos, model`cameraYaw, model`cameraPitch, model`camera, model`view, model`viewProjection, model`boundProgram
      modifies model`boundVertexArray, model`console, model.ctx, model.programs
      ensures Valid() && drawnFrames == old(drawnFrames) + 1
      ensures var moving := Moving(moveDirection);
        var pos := FramePosition(old(model.cameraPos), old(model.camera), moveDirection, model.moveSpeed);
        var moved := pos != old(model.cameraPos);
        model.cameraPos == pos && model.cameraYaw == old(model.cameraYaw) && model.cameraPitch == old(model.cameraPitch) &&
        model.viewProjection == Some(Camera.ViewProjection(old(model.projection), model.Pose())) &&
        var first := Run(model.ReplayScene(), old(model.Snapshot()), model.commands);
        Outcome(model.Snapshot(), threw) == Replays(model.ReplayScene(), old(model.Snapshot()), model.commands, if moved then 2 else 1) &&
        (willRedraw <==> moving && !(moved && first.threw))
    {
      willRedraw := false;
      drawnFrames := drawnFrames + 1;
      var moved, stepThrew;
      ghost var stepped;
      moved, stepThrew, threw, stepped := model.Frame(moveDirection);
      if Moving(moveDirection) && !stepThrew {
        RequestRedraw();
      }
    }

    /** `onMouseMove`: while the button is down, the movement turns the camera (yaw first, then pitch). */
    method OnMouseMove(movementX: real, movementY: real) returns (threw: bool)
      requires Valid()
      modifies this`willRedraw, this`requestedFrames
      modifies model`cameraPos, model`cameraYaw, model`cameraPitch, model`camera, model`view, model`viewProjection, model`boundProgram
      modifies model`boundVertexArray, model`console, model.ctx, model.programs
      ensures Valid()
      ensures !isMouseDown ==> !threw && unchanged(this, model) && model.Snapshot() == old(model.Snapshot())
      ensures isMouseDown ==> (model.cameraPos == old(model.cameraPos) &&
        model.cameraYaw == TurnedAngle(old(model.cameraYaw), movementX, model.mouseSpeed) &&
        (!threw ==> model.cameraPitch == TurnedAngle(old(model.cameraPitch), movementY, model.mouseSpeed) && willRedraw) &&
        (threw ==> willRedraw == old(willRedraw)))
    {
      threw := false;
      if isMouseDown {
        var speed := model.mouseSpeed;
        var yaw, pitch := TurnedAngle(model.cameraYaw, movementX, speed), TurnedAngle(model.cameraPitch, movementY, speed);
        ghost var yawThrew, turned;
        threw, yawThrew, turned := model.Turn(yaw, pitch);
        if !threw {
          RequestRedraw();
        }
      }
    }

    /** `onMouseDown`. */
    method OnMouseDown()
      modifies this`isMouseDown
      ensures isMouseDown
    {
      isMouseDown := true;
    }

    /** `onMouseUp`. */
    method OnMouseUp()
      modifies this`isMouseDown
      ensures !isMouseDown
    {
      isMouseDown := false;
    }

    /** `onMouseOut`: the button and every key count as released. */
    method OnMouseOut()
      requires Valid()
      modifies this`isMouseDown, this`moveDirection
      ensures Valid() && !isMouseDown && !Moving(moveDirection)
    {
      isMouseDown := false;
      moveDirection := [false, false, false, false];
    }

    /** `onKeyDown`: a first press of a move key holds it and requests a frame; repeats are ignored. */
    method OnKeyDown(key: string, repeat: bool)
      requires Valid()
      modifies this`moveDirection, this`willRedraw, this`requestedFrames
      ensures Valid()
      ensures moveDirection == if repeat then old(moveDirection) else Press(old(moveDirection), model.moveKeys, key)
      ensures var pressed := !repeat && KeyIndex(model.moveKeys, key).Some?;
        (willRedraw <==> old(willRedraw) || pressed) &&
        requestedFrames == old(requestedFrames) + (if pressed && !old(willRedraw) then 1 else 0)
    {
      if !repeat {
        var i := KeyIndex(model.moveKeys, key);
        if i.Some? {
          moveDirection := moveDirection[i.value := true];
          RequestRedraw();
        }
      }
    }

    /** `onKeyUp`: a move key is released. */
    method OnKeyUp(key: string)
      requires Valid()
      modifies this`moveDirection
      ensures Valid() && moveDirection == Release(old(moveDirection), model.moveKeys, key)
    {
      var i := KeyIndex(model.moveKeys, key);
      if i.Some? {
        moveDirection := moveDirection[i.value := false];
      }
    }
  }
}
