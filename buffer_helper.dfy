/**
 * src/glbufferhelper.ts: the host's buffer target and usage tokens turned into WebGL
 * enumerants. An unknown token is reported on the console and the default is used.
 */
module BufferHelper {

  import opened Wrappers
  import opened GL
  import opened Tables

  /** The enumerant chosen, and the console error logged on the way, if any. */
  datatype Converted = Converted(value: GLenum, logged: Option<string>)

  /** The eight binding-point tokens and their enumerants. */
  const TargetTable: seq<(string, GLenum)> := [
    ("array_buffer", ARRAY_BUFFER),
    ("element_array_buffer", ELEMENT_ARRAY_BUFFER),
    ("copy_read_buffer", COPY_READ_BUFFER),
    ("copy_write_buffer", COPY_WRITE_BUFFER),
    ("transform_feedback_buffer", TRANSFORM_FEEDBACK_BUFFER),
    ("uniform_buffer", UNIFORM_BUFFER),
    ("pixel_pack_buffer", PIXEL_PACK_BUFFER),
    ("pixel_unpack_buffer", PIXEL_UNPACK_BUFFER)
  ]

  /** The nine usage tokens and their enumerants. */
  const UsageTable: seq<(string, GLenum)> := [
    ("static_draw", STATIC_DRAW),
    ("dynamic_draw", DYNAMIC_DRAW),
    ("stream_draw", STREAM_DRAW),
    ("static_read", STATIC_READ),
    ("dynamic_read", DYNAMIC_READ),
    ("stream_read", STREAM_READ),
    ("static_copy", STATIC_COPY),
    ("dynamic_copy", DYNAMIC_COPY),
    ("stream_copy", STREAM_COPY)
  ]

  /** `convert_buffer_target`: the switch over the eight tokens, ARRAY_BUFFER and a console error otherwise. */
  function ConvertBufferTarget(target: string): (r: Converted)
  {
    var hit := Find(TargetTable, target);
    if hit.Some? then Converted(hit.value, None) else Converted(ARRAY_BUFFER, Some("unknown buffer target " + target))
  }

  /** `convert_usage`: the switch over the nine tokens, STATIC_DRAW and a console error otherwise. */
  function ConvertUsage(usage: string): (r: Converted)
  {
    var hit := Find(UsageTable, usage);
    if hit.Some? then Converted(hit.value, None) else Converted(STATIC_DRAW, Some("unknown buffer usage " + usage))
  }

  /** Each of the eight target tokens gives its enumerant and logs nothing; any other gives ARRAY_BUFFER and logs it. */
  lemma TargetConversion(target: string)
    ensures forall i | 0 <= i < |TargetTable| :: target == TargetTable[i].0 ==>
      ConvertBufferTarget(target) == Converted(TargetTable[i].1, None)
    ensures (forall i | 0 <= i < |TargetTable| :: target != TargetTable[i].0) <==>
      ConvertBufferTarget(target) == Converted(ARRAY_BUFFER, Some("unknown buffer target " + target))
  {
    assert DistinctKeys(TargetTable);
    FindExactly(TargetTable, target);
  }

  /** Each of the nine usage tokens gives its enumerant and logs nothing; any other gives STATIC_DRAW and logs it. */
  lemma UsageConversion(usage: string)
    ensures forall i | 0 <= i < |UsageTable| :: usage == UsageTable[i].0 ==>
      ConvertUsage(usage) == Converted(UsageTable[i].1, None)
    ensures (forall i | 0 <= i < |UsageTable| :: usage != UsageTable[i].0) <==>
      ConvertUsage(usage) == Converted(STATIC_DRAW, Some("unknown buffer usage " + usage))
  {
    assert DistinctKeys(UsageTable);
    FindExactly(UsageTable, usage);
  }

  /** The eight targets are told apart: distinct tokens map to distinct enumerants. */
  lemma TargetsDistinct(a: string, b: string)
    requires ConvertBufferTarget(a).logged.None? && ConvertBufferTarget(b).logged.None?
    ensures ConvertBufferTarget(a).value == ConvertBufferTarget(b).value ==> a == b
  {
    if ConvertBufferTarget(a).value == ConvertBufferTarget(b).value {
      assert DistinctValues(TargetTable);
      FindInjective(TargetTable, a, b);
    }
  }

  /** The nine usages are told apart: distinct tokens map to distinct enumerants. */
  lemma UsagesDistinct(a: string, b: string)
    requires ConvertUsage(a).logged.None? && ConvertUsage(b).logged.None?
    ensures ConvertUsage(a).value == ConvertUsage(b).value ==> a == b
  {
    if ConvertUsage(a).value == ConvertUsage(b).value {
      assert DistinctValues(UsageTable);
      FindInjective(UsageTable, a, b);
    }
  }
}
