/**
 * `GLVertexArray` of src/glvertexarray.ts: a vertex array object and its 'bind'
 * message, which describes the vertex layout of one or more buffers for a program.
 * For each buffer definition the front end binds the buffer, walks the attribute
 * list once to give every attribute of a known component type its byte offset (the
 * running sum of component size times count) and to reach the stride (the full sum),
 * then walks the accepted attributes again to point and enable those the program
 * knows. An unknown type or an unknown attribute writes an error message, unbinds
 * the vertex array and the array buffer, and skips that one attribute only.
 */
module VertexArray {

  import opened Wrappers
  import opened GL

  /** A component type: the GL enumerant and its size in bytes. */
  datatype ComponentType = ComponentType(glType: GLenum, size: nat)

  /** The size in bytes of one component of a vertex-attribute type. */
  function ByteWidth(glType: GLenum): nat
  {
    if glType == BYTE || glType == UNSIGNED_BYTE then 1
    else if glType == SHORT || glType == UNSIGNED_SHORT || glType == HALF_FLOAT then 2
    else 4
  }

  /** The type switch of `bind_buffer`: the eight type names and nothing else. */
  function ComponentOf(typeName: string): (r: Option<ComponentType>)
    ensures r.Some? <==> typeName in {"i8", "i16", "i32", "u8", "u16", "u32", "f16", "f32"}
    ensures r.Some? ==> r.value.size == ByteWidth(r.value.glType)
    ensures r.Some? ==> r.value.glType in {BYTE, SHORT, INT, UNSIGNED_BYTE, UNSIGNED_SHORT, UNSIGNED_INT, HALF_FLOAT, FLOAT}
  {
    match typeName
    case "i8" => Some(ComponentType(BYTE, 1))
    case "i16" => Some(ComponentType(SHORT, 2))
    case "i32" => Some(ComponentType(INT, 4))
    case "u8" => Some(ComponentType(UNSIGNED_BYTE, 1))
    case "u16" => Some(ComponentType(UNSIGNED_SHORT, 2))
    case "u32" => Some(ComponentType(UNSIGNED_INT, 4))
    case "f16" => Some(ComponentType(HALF_FLOAT, 2))
    case "f32" => Some(ComponentType(FLOAT, 4))
    case _ => None
  }

  /** Distinct type names are distinct component types. */
  lemma ComponentTypesDistinct(t: string, u: string)
    requires ComponentOf(t).Some? && ComponentOf(u).Some? && t != u
    ensures ComponentOf(t).value.glType != ComponentOf(u).value.glType
  {
  }

  /** One `{type, count, attrib}` entry of a buffer definition in a 'bind' message. */
  datatype AttributeDef = AttributeDef(typeName: string, count: int, attrib: string)

  /** One `{buffer, attributes}` entry of a 'bind' message: a buffer uid and its layout. */
  datatype BufferDef = BufferDef(buffer: int, attributes: seq<AttributeDef>)

  /** `{name, gltype, type_name, count, offset}`: an accepted attribute and where it starts. */
  datatype Attribute = Attribute(name: string, glType: GLenum, typeName: string, count: int, offset: int)

  /** `{buffer_id, stride, attributes}`: what the vertex array keeps for one buffer definition. */
  datatype BufferRecord = BufferRecord(bufferId: int, stride: int, attributes: seq<Attribute>)

  /** The two calls that unbind the vertex array and the array buffer. */
  const Unbind: seq<Call> :=
    [Call(bindVertexArray, [Object(None)]), Call(bindBuffer, [Enum(ARRAY_BUFFER), Object(None)])]

  // ---------------------------------------------------------------------------
  // The first walk over a definition's attributes: types, offsets, stride.

  /** The stride the first walk reaches over `defs`. */
  function Stride(defs: seq<AttributeDef>): int
  {
    if |defs| == 0 then 0
    else
      var d := defs[|defs| - 1];
      match ComponentOf(d.typeName)
      case None => Stride(defs[..|defs| - 1])
      case Some(c) => Stride(defs[..|defs| - 1]) + c.size * d.count
  }

  /** The attributes the first walk pushes for `defs`. */
  function Attributes(defs: seq<AttributeDef>): (r: seq<Attribute>)
    ensures |r| <= |defs|
  {
    if |defs| == 0 then []
    else
      var d := defs[|defs| - 1];
      var before := Attributes(defs[..|defs| - 1]);
      match ComponentOf(d.typeName)
      case None => before
      case Some(c) => before + [Attribute(d.attrib, c.glType, d.typeName, d.count, Stride(defs[..|defs| - 1]))]
  }

  /** The unbinding calls the first walk makes: one pair per unknown type. */
  function TypeErrorCalls(defs: seq<AttributeDef>): seq<Call>
  {
    if |defs| == 0 then []
    else
      var before := TypeErrorCalls(defs[..|defs| - 1]);
      if ComponentOf(defs[|defs| - 1].typeName).None? then before + Unbind else before
  }

  function TypeError(typeName: string): string
  {
    "unsupported type of buffer : " + typeName
  }

  /** The message after the first walk, starting from `m`: the last unknown type wins. */
  function TypeMessage(defs: seq<AttributeDef>, m: string): string
  {
    if |defs| == 0 then m
    else if ComponentOf(defs[|defs| - 1].typeName).None? then TypeError(defs[|defs| - 1].typeName)
    else TypeMessage(defs[..|defs| - 1], m)
  }

  /** The console lines of the first walk: two per unknown type. */
  function TypeConsole(defs: seq<AttributeDef>): seq<string>
  {
    if |defs| == 0 then []
    else
      var before := TypeConsole(defs[..|defs| - 1]);
      var t := defs[|defs| - 1].typeName;
      if ComponentOf(t).None? then before + ["un supported buffer type", TypeError(t)] else before
  }

  // ---------------------------------------------------------------------------
  // The second walk: pointing and enabling the attributes the program knows.

  function LocationOf(gpu: Gpu, program: Handle, a: Attribute): int
  {
    gpu.attribLocation(program, a.name)
  }

  /** `vertexAttribPointer(location, count, gltype, false, stride, offset)`. */
  function PointerCall(location: int, a: Attribute, stride: int): Call
  {
    Call(vertexAttribPointer, [Num(location), Num(a.count), Enum(a.glType), Flag(false), Num(stride), Num(a.offset)])
  }

  function EnableCall(location: int): Call
  {
    Call(enableVertexAttribArray, [Num(location)])
  }

  /** What one attribute adds to the second walk's calls: unbinding, or pointing and enabling it. */
  function PointerStep(gpu: Gpu, program: Handle, stride: int, a: Attribute): seq<Call>
  {
    var location := LocationOf(gpu, program, a);
    if location < 0 then Unbind else [PointerCall(location, a, stride), EnableCall(location)]
  }

  /** The calls the second walk makes over `attrs` with the buffer's stride. */
  function PointerCalls(gpu: Gpu, program: Handle, stride: int, attrs: seq<Attribute>): seq<Call>
  {
    if |attrs| == 0 then []
    else PointerCalls(gpu, program, stride, attrs[..|attrs| - 1]) + PointerStep(gpu, program, stride, attrs[|attrs| - 1])
  }

  function AttributeError(name: string): string
  {
    "unknown attribute in program : " + name
  }

  /** The message after the second walk, starting from `m`: the last unknown attribute wins. */
  function PointerMessage(gpu: Gpu, program: Handle, attrs: seq<Attribute>, m: string): string
  {
    if |attrs| == 0 then m
    else if LocationOf(gpu, program, attrs[|attrs| - 1]) < 0 then AttributeError(attrs[|attrs| - 1].name)
    else PointerMessage(gpu, program, attrs[..|attrs| - 1], m)
  }

  /** The console lines of the second walk: one per unknown attribute. */
  function PointerConsole(gpu: Gpu, program: Handle, attrs: seq<Attribute>): seq<string>
  {
    if |attrs| == 0 then []
    else
      var before := PointerConsole(gpu, program, attrs[..|attrs| - 1]);
      var a := attrs[|attrs| - 1];
      if LocationOf(gpu, program, a) < 0 then before + [AttributeError(a.name)] else before
  }

  // ---------------------------------------------------------------------------
  // One buffer definition, and the whole 'bind'.

  /** The record one buffer definition leaves in `attributes`. */
  function Record(d: BufferDef): BufferRecord
  {
    BufferRecord(d.buffer, Stride(d.attributes), Attributes(d.attributes))
  }

  /** The records of `bind_buffer`: one per buffer definition, in definition order. */
  function Records(defs: seq<BufferDef>): (r: seq<BufferRecord>)
    ensures |r| == |defs|
    ensures forall i | 0 <= i < |defs| :: r[i] == Record(defs[i])
  {
    if |defs| == 0 then [] else Records(defs[..|defs| - 1]) + [Record(defs[|defs| - 1])]
  }

  /** The buffer uid of `d` names a registered buffer (`get_buffer` gives undefined otherwise). */
  predicate Known(buffers: seq<Option<Handle>>, d: BufferDef)
  {
    0 <= d.buffer < |buffers|
  }

  /**
   * One definition throws a TypeError: reading `_buffer` of an unregistered buffer,
   * or, at the first attribute of the second walk, reading `_program` of an
   * unregistered program or passing a null program object to `getAttribLocation`
   * (`program` is None in both cases).
   */
  predicate DefinitionThrows(program: Option<Handle>, buffers: seq<Option<Handle>>, d: BufferDef)
  {
    !Known(buffers, d) || (program.None? && |Attributes(d.attributes)| > 0)
  }

  /** No definition of `defs` throws. */
  predicate Completes(program: Option<Handle>, buffers: seq<Option<Handle>>, defs: seq<BufferDef>)
  {
    forall i | 0 <= i < |defs| :: !DefinitionThrows(program, buffers, defs[i])
  }

  /** The position of the first definition that throws, or the number of definitions when none does. */
  function FirstThrow(program: Option<Handle>, buffers: seq<Option<Handle>>, defs: seq<BufferDef>): (k: nat)
    ensures k <= |defs| && Completes(program, buffers, defs[..k])
    ensures k < |defs| ==> DefinitionThrows(program, buffers, defs[k])
  {
    if |defs| == 0 then 0
    else if DefinitionThrows(program, buffers, defs[0]) then 0
    else
      var k := 1 + FirstThrow(program, buffers, defs[1..]);
      assert forall i | 1 <= i < k :: defs[..k][i] == defs[1..][..k - 1][i - 1];
      k
  }

  /**
   * The calls the second walk makes. Only a walk over no attribute gets this far
   * without a program object, and it makes none.
   */
  function SecondWalkCalls(gpu: Gpu, program: Option<Handle>, stride: int, attrs: seq<Attribute>): seq<Call>
  {
    if program.None? then [] else PointerCalls(gpu, program.value, stride, attrs)
  }

  function SecondWalkMessage(gpu: Gpu, program: Option<Handle>, attrs: seq<Attribute>, m: string): string
  {
    if program.None? then m else PointerMessage(gpu, program.value, attrs, m)
  }

  function SecondWalkConsole(gpu: Gpu, program: Option<Handle>, attrs: seq<Attribute>): seq<string>
  {
    if program.None? then [] else PointerConsole(gpu, program.value, attrs)
  }

  /** The calls one buffer definition makes, its buffer object being `buffer`. */
  function DefinitionCalls(gpu: Gpu, program: Option<Handle>, buffer: Option<Handle>, d: BufferDef): seq<Call>
  {
    [Call(bindBuffer, [Enum(ARRAY_BUFFER), Object(buffer)])] + TypeErrorCalls(d.attributes) +
    SecondWalkCalls(gpu, program, Stride(d.attributes), Attributes(d.attributes))
  }

  function DefinitionMessage(gpu: Gpu, program: Option<Handle>, d: BufferDef, m: string): string
  {
    SecondWalkMessage(gpu, program, Attributes(d.attributes), TypeMessage(d.attributes, m))
  }

  function DefinitionConsole(gpu: Gpu, program: Option<Handle>, d: BufferDef): seq<string>
  {
    TypeConsole(d.attributes) + SecondWalkConsole(gpu, program, Attributes(d.attributes))
  }

  /** The calls of the definitions in `defs`, the buffer of uid `i` being `buffers[i]`. */
  function DefinitionsCalls(gpu: Gpu, program: Option<Handle>, buffers: seq<Option<Handle>>, defs: seq<BufferDef>): seq<Call>
    requires Completes(program, buffers, defs)
  {
    if |defs| == 0 then []
    else
      var d := defs[|defs| - 1];
      DefinitionsCalls(gpu, program, buffers, defs[..|defs| - 1]) + DefinitionCalls(gpu, program, buffers[d.buffer], d)
  }

  function DefinitionsConsole(gpu: Gpu, program: Option<Handle>, defs: seq<BufferDef>): seq<string>
  {
    if |defs| == 0 then []
    else DefinitionsConsole(gpu, program, defs[..|defs| - 1]) + DefinitionConsole(gpu, program, defs[|defs| - 1])
  }

  /** The message after the definitions in `defs`, starting from `m`. */
  function DefinitionsMessage(gpu: Gpu, program: Option<Handle>, defs: seq<BufferDef>, m: string): string
  {
    if |defs| == 0 then m
    else DefinitionMessage(gpu, program, defs[|defs| - 1], DefinitionsMessage(gpu, program, defs[..|defs| - 1], m))
  }

  /** The calls a throwing definition makes before it throws: its buffer and first walk, when the buffer is known. */
  function ThrowCalls(buffers: seq<Option<Handle>>, d: BufferDef): seq<Call>
  {
    if Known(buffers, d) then [Call(bindBuffer, [Enum(ARRAY_BUFFER), Object(buffers[d.buffer])])] + TypeErrorCalls(d.attributes)
    else []
  }

  function ThrowConsole(buffers: seq<Option<Handle>>, d: BufferDef): seq<string>
  {
    if Known(buffers, d) then TypeConsole(d.attributes) else []
  }

  function ThrowMessage(buffers: seq<Option<Handle>>, d: BufferDef, m: string): string
  {
    if Known(buffers, d) then TypeMessage(d.attributes, m) else m
  }

  /** Every call of a `bind_buffer` that completes: bind the vertex array, the definitions, unbind. */
  function BindCalls(gpu: Gpu, vao: Option<Handle>, program: Option<Handle>, buffers: seq<Option<Handle>>, defs: seq<BufferDef>): seq<Call>
    requires Completes(program, buffers, defs)
  {
    [Call(bindVertexArray, [Object(vao)])] + DefinitionsCalls(gpu, program, buffers, defs) + Unbind
  }

  /** Appending to a log in two steps is appending once. */
  lemma Extend<T>(log: seq<T>, before: seq<T>, step: seq<T>)
    ensures log + before + step == log + (before + step)
  {
  }

  lemma ExtendThree<T>(log: seq<T>, a: seq<T>, b: seq<T>, c: seq<T>)
    ensures log + a + b + c == log + (a + b + c)
  {
  }

  /** JavaScript's `String(n)` for an integer. */
  function DecimalString(n: int): string
  {
    if n < 0 then "-" + Digits(-n) else Digits(n)
  }

  function Digits(n: nat): string
  {
    var d := ['0' + (n % 10) as char];
    if n < 10 then d else Digits(n / 10) + d
  }

  function LinkedMessage(programId: int): string
  {
    "linked to program id :" + DecimalString(programId)
  }

  // ---------------------------------------------------------------------------
  // What the walks compute, stated against independent definitions.

  /** The attribute entries of a known component type, in order. */
  function Accepted(defs: seq<AttributeDef>): (r: seq<AttributeDef>)
    ensures |r| <= |defs|
    ensures forall j | 0 <= j < |r| :: ComponentOf(r[j].typeName).Some?
  {
    if |defs| == 0 then []
    else (if ComponentOf(defs[0].typeName).Some? then [defs[0]] else []) + Accepted(defs[1..])
  }

  /** The bytes one attribute entry occupies in a vertex: component size times count. */
  function Bytes(d: AttributeDef): int
  {
    match ComponentOf(d.typeName)
    case None => 0
    case Some(c) => c.size * d.count
  }

  /** The bytes the entries occupy together. */
  function Footprint(defs: seq<AttributeDef>): int
  {
    if |defs| == 0 then 0 else Bytes(defs[0]) + Footprint(defs[1..])
  }

  /** The attribute an accepted entry becomes when it starts at `offset`. */
  function Placed(d: AttributeDef, offset: int): Attribute
    requires ComponentOf(d.typeName).Some?
  {
    Attribute(d.attrib, ComponentOf(d.typeName).value.glType, d.typeName, d.count, offset)
  }

  lemma {:induction false} AcceptedAppend(a: seq<AttributeDef>, b: seq<AttributeDef>)
    ensures Accepted(a + b) == Accepted(a) + Accepted(b)
    decreases |a|
  {
    if |a| == 0 {
      assert a + b == b;
    } else {
      assert (a + b)[1..] == a[1..] + b;
      AcceptedAppend(a[1..], b);
    }
  }

  lemma {:induction false} FootprintAppend(a: seq<AttributeDef>, b: seq<AttributeDef>)
    ensures Footprint(a + b) == Footprint(a) + Footprint(b)
    decreases |a|
  {
    if |a| == 0 {
      assert a + b == b;
    } else {
      assert (a + b)[1..] == a[1..] + b;
      FootprintAppend(a[1..], b);
    }
  }

  /** The first walk keeps one attribute per entry of a known type. */
  lemma {:induction false} OneAttributePerAcceptedEntry(defs: seq<AttributeDef>)
    ensures |Attributes(defs)| == |Accepted(defs)|
    decreases |defs|
  {
    if |defs| > 0 {
      var p := defs[..|defs| - 1];
      var d := defs[|defs| - 1];
      OneAttributePerAcceptedEntry(p);
      LastEntry(defs);
    }
  }

  /** The entries kept from `defs` are those kept from all but its last entry, then the last one if kept. */
  lemma LastEntry(defs: seq<AttributeDef>)
    requires |defs| > 0
    ensures Accepted(defs) == Accepted(defs[..|defs| - 1]) +
      (if ComponentOf(defs[|defs| - 1].typeName).Some? then [defs[|defs| - 1]] else [])
  {
    var p := defs[..|defs| - 1];
    var d := defs[|defs| - 1];
    assert defs == p + [d];
    AcceptedAppend(p, [d]);
    assert [d][1..] == [];
  }

  /** The first walk's stride over `defs` is its stride over all but the last entry, plus that entry's bytes. */
  lemma StrideLast(defs: seq<AttributeDef>)
    requires |defs| > 0
    ensures Stride(defs) == Stride(defs[..|defs| - 1]) + Bytes(defs[|defs| - 1])
  {
  }

  /** The bytes of the entries kept from one entry are that entry's bytes. */
  lemma FootprintOfOne(d: AttributeDef)
    ensures Footprint(if ComponentOf(d.typeName).Some? then [d] else []) == Bytes(d)
  {
    assert [d][1..] == [];
  }

  /** The stride is the bytes of all the entries of a known type together. */
  lemma {:induction false} StrideIsFootprint(defs: seq<AttributeDef>)
    ensures Stride(defs) == Footprint(Accepted(defs))
    decreases |defs|
  {
    if |defs| > 0 {
      var p := defs[..|defs| - 1];
      var d := defs[|defs| - 1];
      StrideIsFootprint(p);
      StrideLast(defs);
      LastEntry(defs);
      FootprintAppend(Accepted(p), if ComponentOf(d.typeName).Some? then [d] else []);
      FootprintOfOne(d);
    }
  }

  /** Where the kept entries are placed: each after the bytes of those kept before it. */
  predicate PlacedAfterOthers(attrs: seq<Attribute>, kept: seq<AttributeDef>)
  {
    |attrs| == |kept| &&
    forall j | 0 <= j < |kept| ::
      ComponentOf(kept[j].typeName).Some? && attrs[j] == Placed(kept[j], Footprint(kept[..j]))
  }

  /**
   * The first walk keeps exactly the entries of a known type, in order; each starts
   * where the entries kept before it end (the sum of their component size times
   * count), and the stride is the sum over all of them.
   */
  lemma {:induction false} OffsetsArePrefixSums(defs: seq<AttributeDef>)
    ensures PlacedAfterOthers(Attributes(defs), Accepted(defs))
    ensures Stride(defs) == Footprint(Accepted(defs))
    decreases |defs|
  {
    StrideIsFootprint(defs);
    if |defs| > 0 {
      var p := defs[..|defs| - 1];
      var d := defs[|defs| - 1];
      OffsetsArePrefixSums(p);
      LastEntry(defs);
      if ComponentOf(d.typeName).Some? {
        assert Attributes(defs) == Attributes(p) + [Placed(d, Stride(p))];
        PlacedLast(Attributes(p), Accepted(p), d);
      } else {
        assert Attributes(defs) == Attributes(p);
        assert Accepted(defs) == Accepted(p);
      }
    }
  }

  /** Appending an accepted entry placed after the others keeps every placement. */
  lemma PlacedLast(attrs: seq<Attribute>, kept: seq<AttributeDef>, d: AttributeDef)
    requires ComponentOf(d.typeName).Some? && PlacedAfterOthers(attrs, kept)
    ensures PlacedAfterOthers(attrs + [Placed(d, Footprint(kept))], kept + [d])
  {
    var attrs' := attrs + [Placed(d, Footprint(kept))];
    var kept' := kept + [d];
    forall j | 0 <= j < |kept'|
      ensures ComponentOf(kept'[j].typeName).Some? && attrs'[j] == Placed(kept'[j], Footprint(kept'[..j]))
    {
      if j == |kept| {
        assert kept'[..j] == kept;
      } else {
        assert kept'[..j] == kept[..j];
      }
    }
  }

  /**
   * An entry of unknown type is skipped on its own: the entries after it are kept as
   * if it were not there.
   */
  lemma UnknownTypeIsSkipped(before: seq<AttributeDef>, unknown: AttributeDef, after: seq<AttributeDef>)
    requires ComponentOf(unknown.typeName).None?
    ensures Accepted(before + [unknown] + after) == Accepted(before) + Accepted(after)
  {
    var front := before + [unknown];
    AcceptedAppend(front, after);
    AcceptedAppend(before, [unknown]);
    AcceptedOfUnknown(unknown);
    assert Accepted(front) == Accepted(before) + [];
    Extend(Accepted(before), [], Accepted(after));
  }

  /** An entry of unknown type on its own keeps nothing. */
  lemma AcceptedOfUnknown(unknown: AttributeDef)
    requires ComponentOf(unknown.typeName).None?
    ensures Accepted([unknown]) == []
  {
    assert [unknown][1..] == [];
  }

  /** Each entry of unknown type costs one unbinding pair, and nothing else does. */
  lemma {:induction false} UnbindsPerUnknownType(defs: seq<AttributeDef>)
    ensures |TypeErrorCalls(defs)| == 2 * (|defs| - |Accepted(defs)|)
    decreases |defs|
  {
    if |defs| > 0 {
      var p := defs[..|defs| - 1];
      var d := defs[|defs| - 1];
      UnbindsPerUnknownType(p);
      assert defs == p + [d];
      AcceptedAppend(p, [d]);
      assert [d][1..] == [];
    }
  }

  /** The attributes the program knows (a non-negative location), in order. */
  function Pointed(gpu: Gpu, program: Handle, attrs: seq<Attribute>): (r: seq<Attribute>)
    ensures |r| <= |attrs|
    ensures forall j | 0 <= j < |r| :: LocationOf(gpu, program, r[j]) >= 0
  {
    if |attrs| == 0 then []
    else (if LocationOf(gpu, program, attrs[0]) >= 0 then [attrs[0]] else []) + Pointed(gpu, program, attrs[1..])
  }

  lemma {:induction false} PointedAppend(gpu: Gpu, program: Handle, a: seq<Attribute>, b: seq<Attribute>)
    ensures Pointed(gpu, program, a + b) == Pointed(gpu, program, a) + Pointed(gpu, program, b)
    decreases |a|
  {
    if |a| == 0 {
      assert a + b == b;
    } else {
      assert (a + b)[1..] == a[1..] + b;
      PointedAppend(gpu, program, a[1..], b);
    }
  }

  /** `calls` point, one by one, exactly the attributes of `attrs` at their locations. */
  predicate PointsEach(calls: seq<Call>, gpu: Gpu, program: Handle, stride: int, attrs: seq<Attribute>)
  {
    |calls| == |attrs| &&
    forall j | 0 <= j < |attrs| :: calls[j] == PointerCall(LocationOf(gpu, program, attrs[j]), attrs[j], stride)
  }

  /** `calls` enable, one by one, exactly the locations of the attributes of `attrs`. */
  predicate EnablesEach(calls: seq<Call>, gpu: Gpu, program: Handle, attrs: seq<Attribute>)
  {
    |calls| == |attrs| &&
    forall j | 0 <= j < |attrs| :: calls[j] == EnableCall(LocationOf(gpu, program, attrs[j]))
  }

  /** The second walk over `attrs` is its walk over all but the last, then the last one's step. */
  lemma LastAttribute(gpu: Gpu, program: Handle, stride: int, attrs: seq<Attribute>)
    requires |attrs| > 0
    ensures PointerCalls(gpu, program, stride, attrs) ==
      PointerCalls(gpu, program, stride, attrs[..|attrs| - 1]) + PointerStep(gpu, program, stride, attrs[|attrs| - 1])
    ensures Pointed(gpu, program, attrs) == Pointed(gpu, program, attrs[..|attrs| - 1]) +
      (if LocationOf(gpu, program, attrs[|attrs| - 1]) >= 0 then [attrs[|attrs| - 1]] else [])
  {
    var p := attrs[..|attrs| - 1];
    var a := attrs[|attrs| - 1];
    assert attrs == p + [a];
    PointedAppend(gpu, program, p, [a]);
    assert [a][1..] == [];
  }

  /** One attribute's step points it exactly when the program knows it. */
  lemma StepPoints(gpu: Gpu, program: Handle, stride: int, a: Attribute)
    ensures CallsOf(PointerStep(gpu, program, stride, a), vertexAttribPointer) ==
      if LocationOf(gpu, program, a) >= 0 then [PointerCall(LocationOf(gpu, program, a), a, stride)] else []
    ensures CallsOf(PointerStep(gpu, program, stride, a), enableVertexAttribArray) ==
      if LocationOf(gpu, program, a) >= 0 then [EnableCall(LocationOf(gpu, program, a))] else []
  {
    var step := PointerStep(gpu, program, stride, a);
    assert step == [step[0], step[1]];
    CallsOfTwo(step[0], step[1], vertexAttribPointer);
    CallsOfTwo(step[0], step[1], enableVertexAttribArray);
  }

  /** Pointing one more attribute after the others. */
  lemma PointsOneMore(calls: seq<Call>, gpu: Gpu, program: Handle, stride: int, attrs: seq<Attribute>, a: Attribute)
    requires PointsEach(calls, gpu, program, stride, attrs)
    ensures PointsEach(calls + [PointerCall(LocationOf(gpu, program, a), a, stride)], gpu, program, stride, attrs + [a])
  {
  }

  /** Enabling one more attribute after the others. */
  lemma EnablesOneMore(calls: seq<Call>, gpu: Gpu, program: Handle, attrs: seq<Attribute>, a: Attribute)
    requires EnablesEach(calls, gpu, program, attrs)
    ensures EnablesEach(calls + [EnableCall(LocationOf(gpu, program, a))], gpu, program, attrs + [a])
  {
  }

  /**
   * The second walk points exactly the attributes the program knows, in order, each
   * with its own count, type and offset and the buffer's stride; an attribute the
   * program does not know is not pointed.
   */
  lemma {:induction false} PointersFollowLocations(gpu: Gpu, program: Handle, stride: int, attrs: seq<Attribute>)
    ensures PointsEach(CallsOf(PointerCalls(gpu, program, stride, attrs), vertexAttribPointer), gpu, program, stride,
      Pointed(gpu, program, attrs))
    decreases |attrs|
  {
    if |attrs| > 0 {
      var p := attrs[..|attrs| - 1];
      var a := attrs[|attrs| - 1];
      var before := CallsOf(PointerCalls(gpu, program, stride, p), vertexAttribPointer);
      PointersFollowLocations(gpu, program, stride, p);
      LastAttribute(gpu, program, stride, attrs);
      CallsOfAppend(PointerCalls(gpu, program, stride, p), PointerStep(gpu, program, stride, a), vertexAttribPointer);
      StepPoints(gpu, program, stride, a);
      if LocationOf(gpu, program, a) >= 0 {
        PointsOneMore(before, gpu, program, stride, Pointed(gpu, program, p), a);
      } else {
        assert before + [] == before;
        assert Pointed(gpu, program, p) + [] == Pointed(gpu, program, p);
      }
    }
  }

  /** The second walk enables exactly the locations of the attributes the program knows, in order. */
  lemma {:induction false} EnablesFollowLocations(gpu: Gpu, program: Handle, stride: int, attrs: seq<Attribute>)
    ensures EnablesEach(CallsOf(PointerCalls(gpu, program, stride, attrs), enableVertexAttribArray), gpu, program,
      Pointed(gpu, program, attrs))
    decreases |attrs|
  {
    if |attrs| > 0 {
      var p := attrs[..|attrs| - 1];
      var a := attrs[|attrs| - 1];
      var before := CallsOf(PointerCalls(gpu, program, stride, p), enableVertexAttribArray);
      EnablesFollowLocations(gpu, program, stride, p);
      LastAttribute(gpu, program, stride, attrs);
      CallsOfAppend(PointerCalls(gpu, program, stride, p), PointerStep(gpu, program, stride, a), enableVertexAttribArray);
      StepPoints(gpu, program, stride, a);
      if LocationOf(gpu, program, a) >= 0 {
        EnablesOneMore(before, gpu, program, Pointed(gpu, program, p), a);
      } else {
        assert before + [] == before;
        assert Pointed(gpu, program, p) + [] == Pointed(gpu, program, p);
      }
    }
  }

  /** The definitions up to `i`, then one more that does not throw: each walk function gains that definition's part. */
  lemma DefinitionsExtend(gpu: Gpu, program: Option<Handle>, buffers: seq<Option<Handle>>, defs: seq<BufferDef>, i: nat, m: string)
    requires i < |defs| && Completes(program, buffers, defs[..i]) && !DefinitionThrows(program, buffers, defs[i])
    ensures Completes(program, buffers, defs[..i + 1])
    ensures Records(defs[..i + 1]) == Records(defs[..i]) + [Record(defs[i])]
    ensures DefinitionsCalls(gpu, program, buffers, defs[..i + 1]) ==
      DefinitionsCalls(gpu, program, buffers, defs[..i]) + DefinitionCalls(gpu, program, buffers[defs[i].buffer], defs[i])
    ensures DefinitionsConsole(gpu, program, defs[..i + 1]) == DefinitionsConsole(gpu, program, defs[..i]) + DefinitionConsole(gpu, program, defs[i])
    ensures DefinitionsMessage(gpu, program, defs[..i + 1], m) == DefinitionMessage(gpu, program, defs[i], DefinitionsMessage(gpu, program, defs[..i], m))
  {
    CompletesExtend(program, buffers, defs, i);
    var next := defs[..i + 1];
    assert next[..|next| - 1] == defs[..i] && next[|next| - 1] == defs[i];
  }

  /** A definition that does not throw after definitions that complete: they all complete. */
  lemma CompletesExtend(program: Option<Handle>, buffers: seq<Option<Handle>>, defs: seq<BufferDef>, i: nat)
    requires i < |defs| && Completes(program, buffers, defs[..i]) && !DefinitionThrows(program, buffers, defs[i])
    ensures Completes(program, buffers, defs[..i + 1])
  {
    var next := defs[..i + 1];
    forall j | 0 <= j < |next|
      ensures !DefinitionThrows(program, buffers, next[j])
    {
      if j < i {
        assert next[j] == defs[..i][j];
      }
    }
  }

  /** When the definitions before `i` complete and definition `i` throws, the first throw is at `i`. */
  lemma {:induction false} FirstThrowAt(program: Option<Handle>, buffers: seq<Option<Handle>>, defs: seq<BufferDef>, i: nat)
    requires i < |defs| && Completes(program, buffers, defs[..i]) && DefinitionThrows(program, buffers, defs[i])
    ensures FirstThrow(program, buffers, defs) == i
    ensures !Completes(program, buffers, defs)
    decreases i
  {
    if i > 0 {
      assert defs[1..][..i - 1] == defs[..i][1..];
      assert defs[..i][0] == defs[0];
      FirstThrowAt(program, buffers, defs[1..], i - 1);
    }
  }

  // ---------------------------------------------------------------------------
  // The model object.

  /** The messages a vertex array handles; anything but 'bind' is ignored. */
  datatype VertexArrayMessage = Bind(program: int, buffers: seq<BufferDef>) | Other

  class GLVertexArray {
    const vao: Option<Handle>
    const uid: int
    var message: string
    var attributes: seq<BufferRecord>
    var console: seq<string>

    /** `initialize`: create the vertex array object, or report that it could not be created. */
    constructor(ctx: Context, uid: int)
      modifies ctx
      ensures vao == NewObject(ctx.gpu, old(ctx.calls))
      ensures ctx.calls == old(ctx.calls) + [Call(createVertexArray, [])]
      ensures this.uid == uid && message == "" && attributes == []
      ensures console == if vao.None? then ["could not create a vertex array"] else []
    {
      this.uid := uid;
      message := "";
      attributes := [];
      var created := ctx.Create(createVertexArray, []);
      vao := created;
      console := if created.None? then ["could not create a vertex array"] else [];
    }

    /**
     * `handle_custom_messages`: a 'bind' message binds the buffers; `program` is the
     * program object of the message's program uid (None when that uid names no
     * program or the program has no program object) and `buffers` holds the buffer
     * object of each registered buffer, by uid. `ok` is false when the binding threw.
     */
    method HandleCustomMessage(ctx: Context, msg: VertexArrayMessage, program: Option<Handle>, buffers: seq<Option<Handle>>)
      returns (ok: bool)
      modifies this, ctx
      ensures msg.Other? ==>
        ok && message == old(message) && attributes == old(attributes) && console == old(console) && ctx.calls == old(ctx.calls)
      ensures msg.Bind? ==> (ok <==> Completes(program, buffers, msg.buffers))
      ensures msg.Bind? && ok ==>
        message == LinkedMessage(msg.program) &&
        attributes == Records(msg.buffers) &&
        console == old(console) + DefinitionsConsole(ctx.gpu, program, msg.buffers) &&
        ctx.calls == old(ctx.calls) + BindCalls(ctx.gpu, vao, program, buffers, msg.buffers)
      ensures msg.Bind? && !ok ==>
        var defs := msg.buffers;
        var k := FirstThrow(program, buffers, defs);
        k < |defs| && attributes == old(attributes) &&
        message == ThrowMessage(buffers, defs[k], DefinitionsMessage(ctx.gpu, program, defs[..k], old(message))) &&
        console == old(console) + DefinitionsConsole(ctx.gpu, program, defs[..k]) + ThrowConsole(buffers, defs[k]) &&
        ctx.calls == old(ctx.calls) + [Call(bindVertexArray, [Object(vao)])] +
          DefinitionsCalls(ctx.gpu, program, buffers, defs[..k]) + ThrowCalls(buffers, defs[k])
    {
      ok := true;
      if msg.Bind? {
        ok := BindBuffer(ctx, msg.program, program, buffers, msg.buffers);
      }
    }

    /**
     * `bind_buffer(program_id, buffer_definitions)`: one record per definition, in
     * order, replacing the previous records; the message names the program whatever
     * errors were met on the way. When a definition throws (an unregistered buffer,
     * or attributes to look up without a program object), the calls, console lines
     * and messages made so far stay, the vertex array stays bound, and the records
     * and the linked message are not written.
     */
    method BindBuffer(ctx: Context, programId: int, program: Option<Handle>, buffers: seq<Option<Handle>>, defs: seq<BufferDef>)
      returns (ok: bool)
      modifies this, ctx
      ensures ok <==> Completes(program, buffers, defs)
      ensures ok ==>
        message == LinkedMessage(programId) &&
        attributes == Records(defs) &&
        console == old(console) + DefinitionsConsole(ctx.gpu, program, defs) &&
        ctx.calls == old(ctx.calls) + BindCalls(ctx.gpu, vao, program, buffers, defs)
      ensures !ok ==>
        var k := FirstThrow(program, buffers, defs);
        k < |defs| && attributes == old(attributes) &&
        message == ThrowMessage(buffers, defs[k], DefinitionsMessage(ctx.gpu, program, defs[..k], old(message))) &&
        console == old(console) + DefinitionsConsole(ctx.gpu, program, defs[..k]) + ThrowConsole(buffers, defs[k]) &&
        ctx.calls == old(ctx.calls) + [Call(bindVertexArray, [Object(vao)])] +
          DefinitionsCalls(ctx.gpu, program, buffers, defs[..k]) + ThrowCalls(buffers, defs[k])
    {
      ctx.Issue(bindVertexArray, [Object(vao)]);
      var complete;
      complete, ok := BindDefinitions(ctx, program, buffers, defs);
      if !ok {
        return;
      }
      message := LinkedMessage(programId);
      attributes := complete;
      ctx.IssueAll(Unbind);
      ExtendThree(old(ctx.calls), [Call(bindVertexArray, [Object(vao)])], DefinitionsCalls(ctx.gpu, program, buffers, defs), Unbind);
    }

    /** The loop over the definitions: their records, in order, up to the first that throws. */
    method BindDefinitions(ctx: Context, program: Option<Handle>, buffers: seq<Option<Handle>>, defs: seq<BufferDef>)
      returns (complete: seq<BufferRecord>, ok: bool)
      modifies this, ctx
      ensures ok <==> Completes(program, buffers, defs)
      ensures attributes == old(attributes)
      ensures ok ==>
        complete == Records(defs) &&
        console == old(console) + DefinitionsConsole(ctx.gpu, program, defs) &&
        ctx.calls == old(ctx.calls) + DefinitionsCalls(ctx.gpu, program, buffers, defs)
      ensures !ok ==>
        var k := FirstThrow(program, buffers, defs);
        k < |defs| &&
        message == ThrowMessage(buffers, defs[k], DefinitionsMessage(ctx.gpu, program, defs[..k], old(message))) &&
        console == old(console) + DefinitionsConsole(ctx.gpu, program, defs[..k]) + ThrowConsole(buffers, defs[k]) &&
        ctx.calls == old(ctx.calls) + DefinitionsCalls(ctx.gpu, program, buffers, defs[..k]) + ThrowCalls(buffers, defs[k])
    {
      complete := [];
      ok := true;
      var i := 0;
      while i < |defs|
        invariant 0 <= i <= |defs| && Completes(program, buffers, defs[..i])
        invariant complete == Records(defs[..i])
        invariant ctx.calls == old(ctx.calls) + DefinitionsCalls(ctx.gpu, program, buffers, defs[..i])
        invariant console == old(console) + DefinitionsConsole(ctx.gpu, program, defs[..i])
        invariant message == DefinitionsMessage(ctx.gpu, program, defs[..i], old(message))
        invariant attributes == old(attributes)
      {
        complete, ok := BindNext(ctx, program, buffers, defs, i, complete, old(ctx.calls), old(console), old(message));
        if !ok {
          FirstThrowAt(program, buffers, defs, i);
          return;
        }
        i := i + 1;
      }
      assert defs[..|defs|] == defs;
    }

    /** One turn of the loop over the definitions. */
    method BindNext(ctx: Context, program: Option<Handle>, buffers: seq<Option<Handle>>, defs: seq<BufferDef>, i: nat,
                    done: seq<BufferRecord>, ghost log: seq<Call>, ghost lines: seq<string>, ghost m: string)
      returns (complete: seq<BufferRecord>, ok: bool)
      requires i < |defs| && Completes(program, buffers, defs[..i])
      requires done == Records(defs[..i])
      requires ctx.calls == log + DefinitionsCalls(ctx.gpu, program, buffers, defs[..i])
      requires console == lines + DefinitionsConsole(ctx.gpu, program, defs[..i])
      requires message == DefinitionsMessage(ctx.gpu, program, defs[..i], m)
      modifies this, ctx
      ensures ok <==> !DefinitionThrows(program, buffers, defs[i])
      ensures attributes == old(attributes)
      ensures ok ==>
        Completes(program, buffers, defs[..i + 1]) &&
        complete == Records(defs[..i + 1]) &&
        ctx.calls == log + DefinitionsCalls(ctx.gpu, program, buffers, defs[..i + 1]) &&
        console == lines + DefinitionsConsole(ctx.gpu, program, defs[..i + 1]) &&
        message == DefinitionsMessage(ctx.gpu, program, defs[..i + 1], m)
      ensures !ok ==>
        ctx.calls == log + DefinitionsCalls(ctx.gpu, program, buffers, defs[..i]) + ThrowCalls(buffers, defs[i]) &&
        console == lines + DefinitionsConsole(ctx.gpu, program, defs[..i]) + ThrowConsole(buffers, defs[i]) &&
        message == ThrowMessage(buffers, defs[i], DefinitionsMessage(ctx.gpu, program, defs[..i], m))
    {
      var d := defs[i];
      var record;
      record, ok := BindDefinition(ctx, program, buffers, d);
      complete := done + [record];
      if ok {
        DefinitionsExtend(ctx.gpu, program, buffers, defs, i, m);
        Extend(log, DefinitionsCalls(ctx.gpu, program, buffers, defs[..i]), DefinitionCalls(ctx.gpu, program, buffers[d.buffer], d));
        Extend(lines, DefinitionsConsole(ctx.gpu, program, defs[..i]), DefinitionConsole(ctx.gpu, program, d));
      }
    }

    /**
     * The body of the loop over the definitions: one buffer, its two walks, its
     * record; or the TypeError of an unregistered buffer (before any call) or of
     * attributes to look up without a program object (after the first walk).
     */
    method BindDefinition(ctx: Context, program: Option<Handle>, buffers: seq<Option<Handle>>, d: BufferDef)
      returns (record: BufferRecord, ok: bool)
      modifies this, ctx
      ensures ok <==> !DefinitionThrows(program, buffers, d)
      ensures ok ==>
        record == Record(d) &&
        message == DefinitionMessage(ctx.gpu, program, d, old(message)) &&
        console == old(console) + DefinitionConsole(ctx.gpu, program, d) &&
        ctx.calls == old(ctx.calls) + DefinitionCalls(ctx.gpu, program, buffers[d.buffer], d)
      ensures !ok ==>
        message == ThrowMessage(buffers, d, old(message)) &&
        console == old(console) + ThrowConsole(buffers, d) &&
        ctx.calls == old(ctx.calls) + ThrowCalls(buffers, d)
      ensures attributes == old(attributes)
    {
      if !(0 <= d.buffer < |buffers|) {
        return BufferRecord(d.buffer, 0, []), false;
      }
      var buffer := buffers[d.buffer];
      ctx.Issue(bindBuffer, [Enum(ARRAY_BUFFER), Object(buffer)]);
      var attrs, stride := DescribeAttributes(ctx, d.attributes);
      record := BufferRecord(d.buffer, stride, attrs);
      if program.None? && |attrs| > 0 {
        return record, false;
      }
      ok := true;
      if program.Some? {
        PointAttributes(ctx, program.value, stride, attrs);
      }
      ExtendThree(old(ctx.calls), [Call(bindBuffer, [Enum(ARRAY_BUFFER), Object(buffer)])], TypeErrorCalls(d.attributes),
        SecondWalkCalls(ctx.gpu, program, stride, attrs));
      Extend(old(console), TypeConsole(d.attributes), SecondWalkConsole(ctx.gpu, program, attrs));
    }

    /** The first walk over one definition's attributes. */
    method DescribeAttributes(ctx: Context, defs: seq<AttributeDef>) returns (attrs: seq<Attribute>, stride: int)
      modifies this, ctx
      ensures attrs == Attributes(defs) && stride == Stride(defs)
      ensures message == TypeMessage(defs, old(message))
      ensures console == old(console) + TypeConsole(defs)
      ensures ctx.calls == old(ctx.calls) + TypeErrorCalls(defs)
      ensures attributes == old(attributes)
    {
      attrs := [];
      stride := 0;
      var k := 0;
      while k < |defs|
        invariant 0 <= k <= |defs|
        invariant attrs == Attributes(defs[..k]) && stride == Stride(defs[..k])
        invariant message == TypeMessage(defs[..k], old(message))
        invariant console == old(console) + TypeConsole(defs[..k])
        invariant ctx.calls == old(ctx.calls) + TypeErrorCalls(defs[..k])
        invariant attributes == old(attributes)
      {
        var e := defs[k];
        assert defs[..k + 1][..k] == defs[..k];
        var c := ComponentOf(e.typeName);
        if c.None? {
          message := TypeError(e.typeName);
          Extend(old(console), TypeConsole(defs[..k]), ["un supported buffer type", TypeError(e.typeName)]);
          console := console + ["un supported buffer type", TypeError(e.typeName)];
          Extend(old(ctx.calls), TypeErrorCalls(defs[..k]), Unbind);
          ctx.IssueAll(Unbind);
        } else {
          attrs := attrs + [Attribute(e.attrib, c.value.glType, e.typeName, e.count, stride)];
          stride := stride + c.value.size * e.count;
        }
        k := k + 1;
      }
      assert defs[..|defs|] == defs;
    }

    /** The second walk: point and enable each attribute the program knows. */
    method PointAttributes(ctx: Context, program: Handle, stride: int, attrs: seq<Attribute>)
      modifies this, ctx
      ensures message == PointerMessage(ctx.gpu, program, attrs, old(message))
      ensures console == old(console) + PointerConsole(ctx.gpu, program, attrs)
      ensures ctx.calls == old(ctx.calls) + PointerCalls(ctx.gpu, program, stride, attrs)
      ensures attributes == old(attributes)
    {
      var k := 0;
      while k < |attrs|
        invariant 0 <= k <= |attrs|
        invariant message == PointerMessage(ctx.gpu, program, attrs[..k], old(message))
        invariant console == old(console) + PointerConsole(ctx.gpu, program, attrs[..k])
        invariant ctx.calls == old(ctx.calls) + PointerCalls(ctx.gpu, program, stride, attrs[..k])
        invariant attributes == old(attributes)
      {
        var a := attrs[k];
        assert attrs[..k + 1][..k] == attrs[..k];
        var location := ctx.gpu.attribLocation(program, a.name);
        if location < 0 {
          message := AttributeError(a.name);
          Extend(old(console), PointerConsole(ctx.gpu, program, attrs[..k]), [AttributeError(a.name)]);
          console := console + [AttributeError(a.name)];
          Extend(old(ctx.calls), PointerCalls(ctx.gpu, program, stride, attrs[..k]), Unbind);
          ctx.IssueAll(Unbind);
        } else {
          var step := [PointerCall(location, a, stride), EnableCall(location)];
          Extend(old(ctx.calls), PointerCalls(ctx.gpu, program, stride, attrs[..k]), step);
          ctx.IssueAll(step);
        }
        k := k + 1;
      }
      assert attrs[..|attrs|] == attrs;
    }
  }
}
