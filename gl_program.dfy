/**
 * `GLProgram` of src/glprogram.ts: the front-end model of a shader program. `compile`
 * builds the program from two shader sources, recording the outcome in `ready` and
 * three message fields; uniform uploads look the uniform up (caching every lookup)
 * and pick the WebGL upload call from the array's dtype and shape.
 */
module Program {

  import opened Wrappers
  import opened Json
  import opened GL

  /** One entry of the `_uniforms` cache. */
  datatype UniformEntry = UniformEntry(name: string, location: Option<Location>)

  /** Which message field a shader compilation reports to. */
  datatype Stage = VertexStage | PixelStage

  /** The model's fields, plus the lines written to the console. */
  datatype ProgramState = ProgramState(
    ready: bool,
    program: Option<Handle>,
    uniforms: seq<UniformEntry>,
    vertexShaderMessage: string,
    pixelShaderMessage: string,
    programMessage: string,
    console: seq<string>)

  /** The model's defaults. */
  const Defaults := ProgramState(false, None, [], "", "", "", [])

  /** What `createShader` does: the calls it makes, the shader it returns, the message it sets. */
  datatype ShaderOutcome = ShaderOutcome(calls: seq<Call>, shader: Option<Handle>, message: Option<string>, console: seq<string>)

  /** `createShader(gl, sourceCode, type, output_message)` after the calls in `log`. */
  function ShaderSpec(gpu: Gpu, log: seq<Call>, kind: GLenum, source: string): (r: ShaderOutcome)
    ensures |r.calls| > 0 && r.calls[0] == Call(createShader, [Enum(kind)])
    ensures r.shader.Some? ==> r.shader == NewObject(gpu, log) && gpu.compiles(r.shader.value) && r.message == Some("ok")
    ensures NewObject(gpu, log).None? ==> r.shader.None? && r.message.None? && r.console == ["could not create shader"]
    ensures NewObject(gpu, log).Some? && !gpu.compiles(NewObject(gpu, log).value) ==>
      r.shader.None? && r.message == Some(gpu.shaderLog(NewObject(gpu, log).value))
  {
    var h := NewObject(gpu, log);
    if h.None? then ShaderOutcome([Call(createShader, [Enum(kind)])], None, None, ["could not create shader"])
    else
      var calls := [Call(createShader, [Enum(kind)]), Call(shaderSource, [Object(h), Text(source)]),
                    Call(compileShader, [Object(h)])];
      if !gpu.compiles(h.value) then ShaderOutcome(calls, None, Some(gpu.shaderLog(h.value)), [])
      else ShaderOutcome(calls, h, Some("ok"), [])
  }

  /** The state after `createShader` has reported to the message field of `stage`. */
  function Report(s: ProgramState, stage: Stage, o: ShaderOutcome): ProgramState
  {
    var s1 := s.(console := s.console + o.console);
    if o.message.None? then s1
    else if stage == VertexStage then s1.(vertexShaderMessage := o.message.value)
    else s1.(pixelShaderMessage := o.message.value)
  }

  /** `deleteProgram` of the previous program, if there is one. */
  function Retire(previous: Option<Handle>): seq<Call>
  {
    if previous.Some? then [Call(deleteProgram, [Object(previous)])] else []
  }

  /** The outcome of a shader that was never attempted. */
  const NoShader := ShaderOutcome([], None, None, [])

  /**
   * The steps of `createProgram` up to the link: the program object (None when it
   * could not be created, and then no shader is attempted) and the vertex and
   * fragment shader outcomes.
   */
  datatype Build = Build(previous: Option<Handle>, program: Option<Handle>, vertex: ShaderOutcome, pixel: ShaderOutcome)

  /** The steps of `createProgram`, when `log` is what the context received before. */
  function Stages(previous: Option<Handle>, gpu: Gpu, log: seq<Call>, vertexCode: string, fragCode: string): Build
  {
    var p := NewObject(gpu, log + Retire(previous));
    var c1 := Retire(previous) + [Call(createProgram, [])];
    if p.None? then Build(previous, None, NoShader, NoShader)
    else
      var vs := ShaderSpec(gpu, log + c1, VERTEX_SHADER, vertexCode);
      Build(previous, p, vs, ShaderSpec(gpu, log + c1 + vs.calls, FRAGMENT_SHADER, fragCode))
  }

  /** Attaching both shaders and linking, which happens only when both compiled. */
  function LinkCalls(p: Option<Handle>, v: Option<Handle>, w: Option<Handle>): seq<Call>
  {
    if v.Some? && w.Some? then
      [Call(attachShader, [Object(p), Object(v)]), Call(attachShader, [Object(p), Object(w)]),
       Call(linkProgram, [Object(p)])]
    else []
  }

  /** `deleteShader` for each of the two shaders that exists. */
  function Cleanup(v: Option<Handle>, w: Option<Handle>): seq<Call>
  {
    (if v.Some? then [Call(deleteShader, [Object(v)])] else []) +
      (if w.Some? then [Call(deleteShader, [Object(w)])] else [])
  }

  /** Every call `createProgram` makes, in order. */
  function BuildCalls(b: Build): seq<Call>
  {
    Retire(b.previous) + [Call(createProgram, [])] + b.vertex.calls + b.pixel.calls +
      LinkCalls(b.program, b.vertex.shader, b.pixel.shader) + Cleanup(b.vertex.shader, b.pixel.shader)
  }

  /** The model's state after `createProgram`. */
  function Outcome(s: ProgramState, gpu: Gpu, b: Build): (r: ProgramState)
    ensures r.uniforms == [] && (r.ready <==> r.program.Some?)
    ensures r.ready <==> b.program.Some? && b.vertex.shader.Some? && b.pixel.shader.Some? && gpu.links(b.program.value)
    ensures r.ready ==> r.program == b.program && r.programMessage == "ok"
  {
    var s1 := s.(ready := false, program := None, uniforms := []);
    if b.program.None? then s1.(console := s1.console + ["could not create program"])
    else AfterLink(Report(Report(s1, VertexStage, b.vertex), PixelStage, b.pixel), gpu, b.program, b.vertex.shader, b.pixel.shader)
  }

  /** The state after the link step of `createProgram`, which runs only when both shaders compiled. */
  function AfterLink(s: ProgramState, gpu: Gpu, p: Option<Handle>, v: Option<Handle>, w: Option<Handle>): ProgramState
    requires p.Some?
  {
    if v.None? || w.None? then s
    else if gpu.links(p.value) then s.(ready := true, program := p, programMessage := "ok")
    else s.(programMessage := gpu.programLog(p.value))
  }

  /**
   * `createProgram(gl, vertexCode, fragCode)`: the new state and the calls made, when
   * `log` is what the context received before.
   */
  function CompileSpec(s: ProgramState, gpu: Gpu, log: seq<Call>, vertexCode: string, fragCode: string)
    : (r: (ProgramState, seq<Call>))
    ensures r.0.uniforms == [] && (r.0.ready <==> r.0.program.Some?)
  {
    var b := Stages(s.program, gpu, log, vertexCode, fragCode);
    (Outcome(s, gpu, b), BuildCalls(b))
  }

  /** The objects among `objects` that the GPU compiles. */
  function CompiledObjects(gpu: Gpu, objects: seq<Option<Handle>>): seq<Option<Handle>>
  {
    if |objects| == 0 then []
    else
      (if objects[0].Some? && gpu.compiles(objects[0].value) then [objects[0]] else []) +
        CompiledObjects(gpu, objects[1..])
  }

  /** Filtering a concatenation filters each part. */
  lemma {:induction false} CompiledObjectsAppend(gpu: Gpu, a: seq<Option<Handle>>, b: seq<Option<Handle>>)
    ensures CompiledObjects(gpu, a + b) == CompiledObjects(gpu, a) + CompiledObjects(gpu, b)
    decreases |a|
  {
    if |a| == 0 {
      assert a + b == b;
    } else {
      assert (a + b)[1..] == a[1..] + b;
      CompiledObjectsAppend(gpu, a[1..], b);
    }
  }

  /** A concatenation of five phases, when all but some of them are empty. */
  lemma SumOfPhases(total: seq<Option<Handle>>, p: seq<Option<Handle>>, x: seq<Option<Handle>>,
                    y: seq<Option<Handle>>, l: seq<Option<Handle>>, c: seq<Option<Handle>>)
    requires total == p + x + y + l + c && p == []
    ensures l == [] && c == [] ==> total == x + y
    ensures x == [] && y == [] && c == [] ==> total == l
    ensures x == [] && y == [] && l == [] ==> total == c
  {
  }

  /** The objects `BuildCalls(b)` passes to `f`, phase by phase. */
  lemma BuildPasses(b: Build, f: Fn)
    ensures ObjectsPassedTo(BuildCalls(b), f) ==
      ObjectsPassedTo(Retire(b.previous) + [Call(createProgram, [])], f) +
      ObjectsPassedTo(b.vertex.calls, f) + ObjectsPassedTo(b.pixel.calls, f) +
      ObjectsPassedTo(LinkCalls(b.program, b.vertex.shader, b.pixel.shader), f) +
      ObjectsPassedTo(Cleanup(b.vertex.shader, b.pixel.shader), f)
  {
    var c1 := Retire(b.previous) + [Call(createProgram, [])];
    var link := LinkCalls(b.program, b.vertex.shader, b.pixel.shader);
    var dels := Cleanup(b.vertex.shader, b.pixel.shader);
    ObjectsPassedToAppend(c1 + b.vertex.calls + b.pixel.calls + link, dels, f);
    ObjectsPassedToAppend(c1 + b.vertex.calls + b.pixel.calls, link, f);
    ObjectsPassedToAppend(c1 + b.vertex.calls, b.pixel.calls, f);
    ObjectsPassedToAppend(c1, b.vertex.calls, f);
  }

  /** Retiring the old program and creating the new one pass no shader and link nothing. */
  lemma PreludePasses(previous: Option<Handle>, f: Fn)
    requires f != deleteProgram
    ensures ObjectsPassedTo(Retire(previous) + [Call(createProgram, [])], f) == []
  {
    ObjectsPassedToAppend(Retire(previous), [Call(createProgram, [])], f);
    ObjectsPassedToOne(Call(createProgram, []), f);
    if previous.Some? {
      ObjectsPassedToOne(Call(deleteProgram, [Object(previous)]), f);
    }
  }

  /** The three calls `createShader` makes for a shader it could create. */
  lemma CreatedShaderPasses(h: Option<Handle>, kind: GLenum, source: string, f: Fn)
    requires f != shaderSource
    ensures ObjectsPassedTo([Call(createShader, [Enum(kind)]), Call(shaderSource, [Object(h), Text(source)]),
                             Call(compileShader, [Object(h)])], f) == if f == compileShader then [h] else []
  {
    ObjectsPassedToThree(Call(createShader, [Enum(kind)]), Call(shaderSource, [Object(h), Text(source)]),
                         Call(compileShader, [Object(h)]), f);
  }


  /**
   * A shader outcome that neither deletes a shader nor links a program, and that
   * returns the shader it compiled exactly when it compiled.
   */
  predicate Honest(gpu: Gpu, o: ShaderOutcome)
  {
    ObjectsPassedTo(o.calls, deleteShader) == [] && ObjectsPassedTo(o.calls, linkProgram) == [] &&
    CompiledObjects(gpu, ObjectsPassedTo(o.calls, compileShader)) == (if o.shader.Some? then [o.shader] else [])
  }

  /** A single object is kept exactly when it compiles. */
  lemma CompiledSingle(gpu: Gpu, h: Option<Handle>)
    ensures CompiledObjects(gpu, [h]) == if h.Some? && gpu.compiles(h.value) then [h] else []
  {
    assert [h][1..] == [];
  }

  /** `createShader` is honest. */
  lemma ShaderIsHonest(gpu: Gpu, log: seq<Call>, kind: GLenum, source: string)
    ensures Honest(gpu, ShaderSpec(gpu, log, kind, source))
  {
    var h := NewObject(gpu, log);
    var o := ShaderSpec(gpu, log, kind, source);
    if h.Some? {
      CreatedShaderPasses(h, kind, source, compileShader);
      CreatedShaderPasses(h, kind, source, deleteShader);
      CreatedShaderPasses(h, kind, source, linkProgram);
      CompiledSingle(gpu, h);
    } else {
      assert o.calls[1..] == [];
    }
  }

  /** The message `createShader` sets for a shader it created: "ok", or the compile log. */
  function Verdict(gpu: Gpu, h: Handle): string
  {
    if gpu.compiles(h) then "ok" else gpu.shaderLog(h)
  }

  /**
   * A shader outcome that either never ran, or compiled exactly one created shader
   * and reports that shader's verdict without writing to the console.
   */
  predicate Reported(gpu: Gpu, o: ShaderOutcome)
  {
    o == NoShader ||
    (var c := ObjectsPassedTo(o.calls, compileShader);
     |c| == 1 && c[0].Some? && o.message == Some(Verdict(gpu, c[0].value)) && o.console == [])
  }

  /** On a context that is not lost, `createShader` compiles the shader it created and reports on it. */
  lemma ShaderIsReported(gpu: Gpu, log: seq<Call>, kind: GLenum, source: string)
    requires !gpu.lost
    ensures Reported(gpu, ShaderSpec(gpu, log, kind, source)) && ShaderSpec(gpu, log, kind, source) != NoShader
  {
    CreatedShaderPasses(NewObject(gpu, log), kind, source, compileShader);
  }

  /**
   * The steps of `createProgram`: the program object is created unless the context
   * is lost; without it no shader is attempted; with it both shaders are, and both
   * outcomes are honest and reported.
   */
  lemma StagesBehave(previous: Option<Handle>, gpu: Gpu, log: seq<Call>, vertexCode: string, fragCode: string)
    ensures var b := Stages(previous, gpu, log, vertexCode, fragCode);
      b.previous == previous && b.program == NewObject(gpu, log + Retire(previous)) &&
      Staged(gpu, b)
  {
    var c1 := Retire(previous) + [Call(createProgram, [])];
    var b := Stages(previous, gpu, log, vertexCode, fragCode);
    StagesAreHonest(previous, gpu, log, vertexCode, fragCode);
    if b.program.Some? {
      ShaderIsReported(gpu, log + c1, VERTEX_SHADER, vertexCode);
      ShaderIsReported(gpu, log + c1 + b.vertex.calls, FRAGMENT_SHADER, fragCode);
    }
  }

  /** What `Stages` computes, step by step. */
  lemma StagesUnfold(previous: Option<Handle>, gpu: Gpu, log: seq<Call>, vertexCode: string, fragCode: string)
    ensures var b := Stages(previous, gpu, log, vertexCode, fragCode);
      var c1 := log + Retire(previous) + [Call(createProgram, [])];
      b.previous == previous && b.program == NewObject(gpu, log + Retire(previous)) &&
      (b.program.None? ==> b.vertex == NoShader && b.pixel == NoShader) &&
      (b.program.Some? ==> b.vertex == ShaderSpec(gpu, c1, VERTEX_SHADER, vertexCode) &&
                           b.pixel == ShaderSpec(gpu, c1 + b.vertex.calls, FRAGMENT_SHADER, fragCode))
  {
    assert log + (Retire(previous) + [Call(createProgram, [])]) == log + Retire(previous) + [Call(createProgram, [])];
  }

  /** The calls of a build, appended to a log, one phase after another. */
  lemma BuildCallsInOrder(log: seq<Call>, b: Build)
    ensures log + BuildCalls(b) ==
      log + Retire(b.previous) + [Call(createProgram, [])] + b.vertex.calls + b.pixel.calls +
      LinkCalls(b.program, b.vertex.shader, b.pixel.shader) + Cleanup(b.vertex.shader, b.pixel.shader)
  {
  }

  /** Both shader outcomes of `createProgram` are honest. */
  lemma StagesAreHonest(previous: Option<Handle>, gpu: Gpu, log: seq<Call>, vertexCode: string, fragCode: string)
    ensures var b := Stages(previous, gpu, log, vertexCode, fragCode);
      Honest(gpu, b.vertex) && Honest(gpu, b.pixel)
  {
    var c1 := Retire(previous) + [Call(createProgram, [])];
    var b := Stages(previous, gpu, log, vertexCode, fragCode);
    if b.program.Some? {
      ShaderIsHonest(gpu, log + c1, VERTEX_SHADER, vertexCode);
      ShaderIsHonest(gpu, log + c1 + b.vertex.calls, FRAGMENT_SHADER, fragCode);
    }
  }

  /** Attaching and linking pass the program to `linkProgram` and nothing else to `f`. */
  lemma LinkPasses(p: Option<Handle>, v: Option<Handle>, w: Option<Handle>, f: Fn)
    requires f != attachShader
    ensures ObjectsPassedTo(LinkCalls(p, v, w), f) == if f == linkProgram && v.Some? && w.Some? then [p] else []
  {
    if v.Some? && w.Some? {
      ObjectsPassedToThree(Call(attachShader, [Object(p), Object(v)]), Call(attachShader, [Object(p), Object(w)]),
                           Call(linkProgram, [Object(p)]), f);
    }
  }


  /** The deletions at the end of `createProgram` pass exactly the shaders present. */
  lemma CleanupPasses(v: Option<Handle>, w: Option<Handle>, f: Fn)
    ensures ObjectsPassedTo(Cleanup(v, w), f) ==
      if f == deleteShader then (if v.Some? then [v] else []) + (if w.Some? then [w] else []) else []
  {
    var dv := if v.Some? then [Call(deleteShader, [Object(v)])] else [];
    var dw := if w.Some? then [Call(deleteShader, [Object(w)])] else [];
    ObjectsPassedToAppend(dv, dw, f);
    if v.Some? { ObjectsPassedToOne(Call(deleteShader, [Object(v)]), f); }
    if w.Some? { ObjectsPassedToOne(Call(deleteShader, [Object(w)]), f); }
  }

  /** `createProgram` deletes the shaders it kept, and with honest shaders nothing else. */
  lemma BuildDeletes(gpu: Gpu, b: Build)
    requires Honest(gpu, b.vertex) && Honest(gpu, b.pixel)
    ensures ObjectsPassedTo(BuildCalls(b), deleteShader) ==
      (if b.vertex.shader.Some? then [b.vertex.shader] else []) + (if b.pixel.shader.Some? then [b.pixel.shader] else [])
  {
    BuildPasses(b, deleteShader);
    PreludePasses(b.previous, deleteShader);
    LinkPasses(b.program, b.vertex.shader, b.pixel.shader, deleteShader);
    CleanupPasses(b.vertex.shader, b.pixel.shader, deleteShader);
    SumOfPhases(ObjectsPassedTo(BuildCalls(b), deleteShader),
      ObjectsPassedTo(Retire(b.previous) + [Call(createProgram, [])], deleteShader),
      ObjectsPassedTo(b.vertex.calls, deleteShader), ObjectsPassedTo(b.pixel.calls, deleteShader),
      ObjectsPassedTo(LinkCalls(b.program, b.vertex.shader, b.pixel.shader), deleteShader),
      ObjectsPassedTo(Cleanup(b.vertex.shader, b.pixel.shader), deleteShader));
  }

  /** `createProgram` compiles only inside its two `createShader` steps. */
  lemma BuildCompiles(b: Build)
    ensures ObjectsPassedTo(BuildCalls(b), compileShader) ==
      ObjectsPassedTo(b.vertex.calls, compileShader) + ObjectsPassedTo(b.pixel.calls, compileShader)
  {
    var x := ObjectsPassedTo(b.vertex.calls, compileShader);
    var y := ObjectsPassedTo(b.pixel.calls, compileShader);
    BuildPasses(b, compileShader);
    PreludePasses(b.previous, compileShader);
    LinkPasses(b.program, b.vertex.shader, b.pixel.shader, compileShader);
    CleanupPasses(b.vertex.shader, b.pixel.shader, compileShader);
    SumOfPhases(ObjectsPassedTo(BuildCalls(b), compileShader),
      ObjectsPassedTo(Retire(b.previous) + [Call(createProgram, [])], compileShader), x, y,
      ObjectsPassedTo(LinkCalls(b.program, b.vertex.shader, b.pixel.shader), compileShader),
      ObjectsPassedTo(Cleanup(b.vertex.shader, b.pixel.shader), compileShader));
  }

  /** With honest shaders, the calls delete exactly the shaders that compiled. */
  lemma BuildDeletesCompiled(gpu: Gpu, b: Build)
    requires Honest(gpu, b.vertex) && Honest(gpu, b.pixel)
    ensures ObjectsPassedTo(BuildCalls(b), deleteShader) ==
      CompiledObjects(gpu, ObjectsPassedTo(BuildCalls(b), compileShader))
  {
    BuildDeletes(gpu, b);
    BuildCompiles(b);
    CompiledObjectsAppend(gpu, ObjectsPassedTo(b.vertex.calls, compileShader), ObjectsPassedTo(b.pixel.calls, compileShader));
  }

  /**
   * The shaders `createProgram` deletes are exactly the shaders it compiled
   * successfully, in the same order, whatever became of the link; a shader that
   * failed to compile is dropped without being deleted.
   */
  lemma CompiledShadersAreDeleted(s: ProgramState, gpu: Gpu, log: seq<Call>, vertexCode: string, fragCode: string)
    ensures var calls := CompileSpec(s, gpu, log, vertexCode, fragCode).1;
      ObjectsPassedTo(calls, deleteShader) == CompiledObjects(gpu, ObjectsPassedTo(calls, compileShader))
  {
    StagesAreHonest(s.program, gpu, log, vertexCode, fragCode);
    BuildDeletesCompiled(gpu, Stages(s.program, gpu, log, vertexCode, fragCode));
  }

  /** With honest shaders, `createProgram` links its program exactly when both shaders compiled. */
  lemma BuildLinks(gpu: Gpu, b: Build)
    requires Honest(gpu, b.vertex) && Honest(gpu, b.pixel)
    ensures ObjectsPassedTo(BuildCalls(b), linkProgram) ==
      if b.vertex.shader.Some? && b.pixel.shader.Some? then [b.program] else []
  {
    BuildPasses(b, linkProgram);
    PreludePasses(b.previous, linkProgram);
    LinkPasses(b.program, b.vertex.shader, b.pixel.shader, linkProgram);
    CleanupPasses(b.vertex.shader, b.pixel.shader, linkProgram);
    SumOfPhases(ObjectsPassedTo(BuildCalls(b), linkProgram),
      ObjectsPassedTo(Retire(b.previous) + [Call(createProgram, [])], linkProgram),
      ObjectsPassedTo(b.vertex.calls, linkProgram), ObjectsPassedTo(b.pixel.calls, linkProgram),
      ObjectsPassedTo(LinkCalls(b.program, b.vertex.shader, b.pixel.shader), linkProgram),
      ObjectsPassedTo(Cleanup(b.vertex.shader, b.pixel.shader), linkProgram));
  }

  /** The facts about a `Build` that `Stages` guarantees. */
  predicate Staged(gpu: Gpu, b: Build)
  {
    (b.program.None? ==> b.vertex == NoShader && b.pixel == NoShader) &&
    (b.program.Some? ==> b.vertex != NoShader && b.pixel != NoShader) &&
    Honest(gpu, b.vertex) && Honest(gpu, b.pixel) && Reported(gpu, b.vertex) && Reported(gpu, b.pixel)
  }

  /** `Outcome` is ready exactly after a successful link, and reports a failed one. */
  lemma OutcomeFollowsLink(s: ProgramState, gpu: Gpu, b: Build)
    requires Staged(gpu, b)
    ensures var r := Outcome(s, gpu, b);
      var linked := ObjectsPassedTo(BuildCalls(b), linkProgram);
      |linked| <= 1 && (|linked| == 1 ==> linked[0].Some?) &&
      (r.ready <==> |linked| == 1 && gpu.links(linked[0].value)) &&
      (r.ready ==> r.program == linked[0] && r.programMessage == "ok" &&
                   r.vertexShaderMessage == "ok" && r.pixelShaderMessage == "ok") &&
      (|linked| == 1 && !gpu.links(linked[0].value) ==> r.programMessage == gpu.programLog(linked[0].value)) &&
      (linked == [] ==> r.programMessage == s.programMessage)
  {
    BuildLinks(gpu, b);
    if b.vertex.shader.Some? && b.pixel.shader.Some? {
      LinkedOutcome(s, gpu, b);
    } else {
      UnlinkedOutcome(s, gpu, b);
    }
  }

  /** When both shaders compiled, `Outcome` follows the link of the program object. */
  lemma LinkedOutcome(s: ProgramState, gpu: Gpu, b: Build)
    requires Staged(gpu, b) && b.vertex.shader.Some? && b.pixel.shader.Some?
    ensures var r := Outcome(s, gpu, b);
      b.program.Some? && (r.ready <==> gpu.links(b.program.value)) &&
      (r.ready ==> r.program == b.program && r.programMessage == "ok" &&
                   r.vertexShaderMessage == "ok" && r.pixelShaderMessage == "ok") &&
      (!gpu.links(b.program.value) ==> r.programMessage == gpu.programLog(b.program.value))
  {
    KeptShaderIsOk(gpu, b.vertex);
    KeptShaderIsOk(gpu, b.pixel);
    ReportsBoth(s.(ready := false, program := None, uniforms := []), b.vertex, b.pixel);
  }

  /** When a shader failed or was never attempted, `Outcome` is not ready and keeps the program message. */
  lemma UnlinkedOutcome(s: ProgramState, gpu: Gpu, b: Build)
    requires Staged(gpu, b) && !(b.vertex.shader.Some? && b.pixel.shader.Some?)
    ensures var r := Outcome(s, gpu, b);
      !r.ready && r.programMessage == s.programMessage
  {
    ReportsBoth(s.(ready := false, program := None, uniforms := []), b.vertex, b.pixel);
  }

  /** An honest, reported outcome that keeps its shader reports "ok". */
  lemma KeptShaderIsOk(gpu: Gpu, o: ShaderOutcome)
    requires Honest(gpu, o) && Reported(gpu, o)
    ensures o.shader.Some? ==> o.message == Some("ok")
  {
    if o.shader.Some? {
      var c := ObjectsPassedTo(o.calls, compileShader);
      assert c == [c[0]];
      CompiledSingle(gpu, c[0]);
    }
  }

  /**
   * `createProgram` links at most one program. It is ready exactly when it linked a
   * program and the link succeeded, and then that program is kept and every message
   * is "ok"; a failed link reports the program's info log; when nothing was linked
   * the program message is left as it was.
   */
  lemma ReadyExactlyWhenLinked(s: ProgramState, gpu: Gpu, log: seq<Call>, vertexCode: string, fragCode: string)
    ensures var r := CompileSpec(s, gpu, log, vertexCode, fragCode);
      var linked := ObjectsPassedTo(r.1, linkProgram);
      |linked| <= 1 && (|linked| == 1 ==> linked[0].Some?) &&
      (r.0.ready <==> |linked| == 1 && gpu.links(linked[0].value)) &&
      (r.0.ready ==> r.0.program == linked[0] && r.0.programMessage == "ok" &&
                     r.0.vertexShaderMessage == "ok" && r.0.pixelShaderMessage == "ok") &&
      (|linked| == 1 && !gpu.links(linked[0].value) ==> r.0.programMessage == gpu.programLog(linked[0].value)) &&
      (linked == [] ==> r.0.programMessage == s.programMessage)
  {
    StagesBehave(s.program, gpu, log, vertexCode, fragCode);
    OutcomeFollowsLink(s, gpu, Stages(s.program, gpu, log, vertexCode, fragCode));
  }

  /** `Outcome` reports the verdicts of the shaders compiled, or the missing program. */
  lemma OutcomeReportsShaders(s: ProgramState, gpu: Gpu, b: Build)
    requires Staged(gpu, b)
    ensures var r := Outcome(s, gpu, b);
      var c := ObjectsPassedTo(BuildCalls(b), compileShader);
      (|c| == 2 && c[0].Some? && c[1].Some? &&
       r.vertexShaderMessage == Verdict(gpu, c[0].value) && r.pixelShaderMessage == Verdict(gpu, c[1].value) &&
       r.console == s.console) ||
      (c == [] && r.vertexShaderMessage == s.vertexShaderMessage && r.pixelShaderMessage == s.pixelShaderMessage &&
       r.console == s.console + ["could not create program"])
  {
    BuildCompiles(b);
    if b.program.Some? {
      CreatedProgramReports(s, gpu, b);
    }
  }

  /** With a program object, `Outcome` reports the verdicts of the two shaders compiled. */
  lemma CreatedProgramReports(s: ProgramState, gpu: Gpu, b: Build)
    requires b.program.Some? && b.vertex != NoShader && b.pixel != NoShader
    requires Reported(gpu, b.vertex) && Reported(gpu, b.pixel)
    ensures var r := Outcome(s, gpu, b);
      var cv := ObjectsPassedTo(b.vertex.calls, compileShader);
      var cf := ObjectsPassedTo(b.pixel.calls, compileShader);
      |cv| == 1 && |cf| == 1 && cv[0].Some? && cf[0].Some? &&
      r.vertexShaderMessage == Verdict(gpu, cv[0].value) && r.pixelShaderMessage == Verdict(gpu, cf[0].value) &&
      r.console == s.console
  {
    var s1 := s.(ready := false, program := None, uniforms := []);
    var s2 := Report(Report(s1, VertexStage, b.vertex), PixelStage, b.pixel);
    assert Outcome(s, gpu, b) == AfterLink(s2, gpu, b.program, b.vertex.shader, b.pixel.shader);
    AfterLinkKeepsReports(s2, gpu, b.program, b.vertex.shader, b.pixel.shader);
    ReportedAttempt(gpu, b.vertex);
    ReportedAttempt(gpu, b.pixel);
    ReportsBoth(s1, b.vertex, b.pixel);
  }

  /** The link step leaves the shader messages and the console alone. */
  lemma AfterLinkKeepsReports(s: ProgramState, gpu: Gpu, p: Option<Handle>, v: Option<Handle>, w: Option<Handle>)
    requires p.Some?
    ensures var r := AfterLink(s, gpu, p, v, w);
      r.vertexShaderMessage == s.vertexShaderMessage && r.pixelShaderMessage == s.pixelShaderMessage &&
      r.console == s.console
  {
  }

  /** A reported outcome of a shader that was attempted compiled one shader and reports its verdict. */
  lemma ReportedAttempt(gpu: Gpu, o: ShaderOutcome)
    requires Reported(gpu, o) && o != NoShader
    ensures var c := ObjectsPassedTo(o.calls, compileShader);
      |c| == 1 && c[0].Some? && o.message == Some(Verdict(gpu, c[0].value)) && o.console == []
  {
  }

  /** Reporting both shaders sets each message field from its own outcome and joins the console lines. */
  lemma ReportsBoth(s: ProgramState, v: ShaderOutcome, p: ShaderOutcome)
    ensures var r := Report(Report(s, VertexStage, v), PixelStage, p);
      r.vertexShaderMessage == (if v.message.Some? then v.message.value else s.vertexShaderMessage) &&
      r.pixelShaderMessage == (if p.message.Some? then p.message.value else s.pixelShaderMessage) &&
      r.console == s.console + v.console + p.console &&
      r.ready == s.ready && r.program == s.program && r.programMessage == s.programMessage && r.uniforms == s.uniforms
  {
  }

  /**
   * `createProgram` either compiles two shaders, the vertex shader first, and reports
   * each one's verdict in its message field, or (when the program object could not be
   * created) compiles none, reports the failure on the console and leaves both
   * shader messages as they were.
   */
  lemma ShadersAreReported(s: ProgramState, gpu: Gpu, log: seq<Call>, vertexCode: string, fragCode: string)
    ensures var r := CompileSpec(s, gpu, log, vertexCode, fragCode);
      var c := ObjectsPassedTo(r.1, compileShader);
      (|c| == 2 && c[0].Some? && c[1].Some? &&
       r.0.vertexShaderMessage == Verdict(gpu, c[0].value) && r.0.pixelShaderMessage == Verdict(gpu, c[1].value) &&
       r.0.console == s.console) ||
      (c == [] && r.0.vertexShaderMessage == s.vertexShaderMessage && r.0.pixelShaderMessage == s.pixelShaderMessage &&
       r.0.console == s.console + ["could not create program"])
  {
    StagesBehave(s.program, gpu, log, vertexCode, fragCode);
    OutcomeReportsShaders(s, gpu, Stages(s.program, gpu, log, vertexCode, fragCode));
  }

  /** The component suffix `setUniform` picks for an array's dtype: int32, uint32 or float32. */
  function UniformKindOf(dtype: string): (r: Option<UniformKind>)
    ensures r == Some(iv) <==> dtype == "int32"
    ensures r == Some(uiv) <==> dtype == "uint32"
    ensures r == Some(fv) <==> dtype == "float32"
  {
    if dtype == "int32" then Some(iv)
    else if dtype == "uint32" then Some(uiv)
    else if dtype == "float32" then Some(fv)
    else None
  }

  /**
   * The `uniform{n}{kind}` method `setUniform` calls for an array of this dtype and
   * shape: n is the last dimension, which must be 1 to 4; any other dtype or width
   * (or an empty shape, whose last dimension reads as undefined) calls nothing.
   */
  function UniformFn(dtype: string, shape: seq<int>): Option<Fn>
  {
    var kind := UniformKindOf(dtype);
    if |shape| == 0 || kind.None? then None
    else
      var n := shape[|shape| - 1];
      if 1 <= n <= 4 then Some(uniform(n, kind.value)) else None
  }

  /**
   * The `uniformMatrix{a}x{b}fv` method `setUniformMatrix` calls for an array of this
   * shape, a and b being its last two dimensions, each 2, 3 or 4; any other shape
   * calls nothing.
   */
  function MatrixFn(shape: seq<int>): Option<Fn>
  {
    if |shape| < 2 then None
    else
      var a := shape[|shape| - 2];
      var b := shape[|shape| - 1];
      if 2 <= a <= 4 && 2 <= b <= 4 then Some(uniformMatrix(a, b)) else None
  }

  /**
   * `setUniform` uploads exactly the vectors of 1 to 4 int32, uint32 or float32
   * components, through the method whose size is the last dimension and whose suffix
   * is the dtype's; distinct (dtype, width) pairs use distinct methods.
   */
  lemma UniformFnMatchesArray(dtype: string, shape: seq<int>, dtype': string, shape': seq<int>)
    ensures UniformFn(dtype, shape).Some? <==>
      |shape| > 0 && 1 <= shape[|shape| - 1] <= 4 && dtype in {"int32", "uint32", "float32"}
    ensures UniformFn(dtype, shape).Some? ==>
      UniformFn(dtype, shape).value.uniform? && UniformFn(dtype, shape).value.size == shape[|shape| - 1] &&
      Some(UniformFn(dtype, shape).value.kind) == UniformKindOf(dtype)
    ensures UniformFn(dtype, shape).Some? && UniformFn(dtype, shape) == UniformFn(dtype', shape') ==>
      dtype == dtype' && shape[|shape| - 1] == shape'[|shape'| - 1]
  {
  }

  /**
   * `setUniformMatrix` uploads exactly the arrays whose last two dimensions are each
   * 2, 3 or 4, through the method named after those two dimensions in order; distinct
   * pairs use distinct methods.
   */
  lemma MatrixFnMatchesArray(shape: seq<int>, shape': seq<int>)
    ensures MatrixFn(shape).Some? <==>
      |shape| >= 2 && shape[|shape| - 2] in {2, 3, 4} && shape[|shape| - 1] in {2, 3, 4}
    ensures MatrixFn(shape).Some? ==>
      MatrixFn(shape).value == uniformMatrix(shape[|shape| - 2], shape[|shape| - 1])
    ensures MatrixFn(shape).Some? && MatrixFn(shape) == MatrixFn(shape') ==>
      shape[|shape| - 2..] == shape'[|shape'| - 2..]
  {
  }

  /**
   * The dimensions of an `array_shape` as the size tests (`shape == 1`, `a == 2`, ...)
   * see them, entry by entry: the integer the entry loosely equals (`true` is 1, "3"
   * and `[3]` are 3), and 0 for an entry that equals no integer, which no test
   * accepts. A string shape's entries are its characters.
   */
  function Dims(shape: Json): (r: seq<int>)
    ensures |r| == |Elements(shape)|
    ensures forall i | 0 <= i < |r| :: r[i] != 0 ==> LooselyEquals(Elements(shape)[i], r[i])
    ensures forall i, k | 0 <= i < |r| && LooselyEquals(Elements(shape)[i], k) :: r[i] == k
  {
    var e := Elements(shape);
    seq(|e|, i requires 0 <= i < |e| =>
      var n := LooseNumber(e[i]);
      if n.Some? && n.value.Floor as real == n.value then n.value.Floor else 0)
  }

  /**
   * The size tests compare loosely: a shape `[true]` selects `uniform1fv`, a shape
   * `["4", "4"]` selects `uniformMatrix4fv`, a shape `[[3]]` selects `uniform3iv`, and the
   * string shape "2" selects `uniform2uiv`.
   */
  lemma LooseShapesUpload()
    ensures UniformFn("float32", Dims(JArr([JBool(true)]))) == Some(uniform(1, fv))
    ensures MatrixFn(Dims(JArr([JStr("4"), JStr("4")]))) == Some(uniformMatrix(4, 4))
    ensures UniformFn("int32", Dims(JArr([JArr([JNum(3.0)])]))) == Some(uniform(3, iv))
    ensures UniformFn("uint32", Dims(JStr("2"))) == Some(uniform(2, uiv))
  {
  }

  /** Reading `array_shape.length` throws exactly on null and undefined. */
  predicate ShapeThrows(shape: Json)
  {
    shape.JNull? || shape.JUndefined?
  }

  /** The upload `setUniform` makes once the location is known; `values` is the typed array passed in. */
  function UniformCalls(loc: Option<Location>, dtype: string, shape: seq<int>, values: Arg): seq<Call>
  {
    var f := UniformFn(dtype, shape);
    if loc.Some? && f.Some? then [Call(f.value, [Loc(loc), values])] else []
  }

  /** The upload `setUniformMatrix` makes once the location is known (never transposed). */
  function MatrixCalls(loc: Option<Location>, shape: seq<int>, values: Arg): seq<Call>
  {
    var f := MatrixFn(shape);
    if loc.Some? && f.Some? then [Call(f.value, [Loc(loc), Flag(false), values])] else []
  }

  /**
   * `requestUniformLocation`: the location always comes from the context (the loop
   * meant to consult the cache returns only from its callback), and the lookup is
   * appended to the cache. Without a program object (`_program` is null until a link
   * succeeds) `getUniformLocation` throws a TypeError before the cache is touched:
   * None.
   */
  function LookUp(s: ProgramState, gpu: Gpu, name: string): (r: Option<(ProgramState, Option<Location>)>)
    ensures r.None? <==> s.program.None?
  {
    if s.program.None? then None
    else
      var loc := gpu.uniformLocation(s.program.value, name);
      Some((s.(uniforms := s.uniforms + [UniformEntry(name, loc)]), loc))
  }

  /** The state after looking up each of `names` in turn; None when a lookup throws. */
  function LookUpAll(s: ProgramState, gpu: Gpu, names: seq<string>): Option<ProgramState>
    decreases |names|
  {
    if |names| == 0 then Some(s)
    else
      var first := LookUp(s, gpu, names[0]);
      if first.None? then None else LookUpAll(first.value.0, gpu, names[1..])
  }

  /**
   * The cache is never consulted, so it only grows: with a program object, looking
   * up any names, repeated or not, appends one entry per lookup, each holding the
   * context's answer, and changes nothing else; without one, the first lookup throws.
   */
  lemma {:induction false} LookupsOnlyGrowCache(s: ProgramState, gpu: Gpu, names: seq<string>)
    ensures s.program.None? ==> (LookUpAll(s, gpu, names).None? <==> |names| > 0)
    ensures s.program.Some? ==> LookUpAll(s, gpu, names).Some?
    ensures s.program.Some? ==> var t := LookUpAll(s, gpu, names).value;
      |t.uniforms| == |s.uniforms| + |names| && t.uniforms[..|s.uniforms|] == s.uniforms &&
      (forall i :: 0 <= i < |names| ==>
        t.uniforms[|s.uniforms| + i] == UniformEntry(names[i], gpu.uniformLocation(s.program.value, names[i]))) &&
      t == s.(uniforms := t.uniforms)
    decreases |names|
  {
    if |names| > 0 && s.program.Some? {
      var s1 := LookUp(s, gpu, names[0]).value.0;
      LookupsOnlyGrowCache(s1, gpu, names[1..]);
      var t := LookUpAll(s, gpu, names).value;
      assert t == LookUpAll(s1, gpu, names[1..]).value;
      forall i | 0 <= i < |names|
        ensures t.uniforms[|s.uniforms| + i] == UniformEntry(names[i], gpu.uniformLocation(s.program.value, names[i]))
      {
        if i > 0 {
          assert t.uniforms[|s1.uniforms| + (i - 1)] == UniformEntry(names[1..][i - 1], gpu.uniformLocation(s1.program.value, names[1..][i - 1]));
        } else {
          assert t.uniforms[..|s1.uniforms|] == s1.uniforms;
        }
      }
      assert t.uniforms[..|s.uniforms|] == t.uniforms[..|s1.uniforms|][..|s.uniforms|];
    }
  }

  /** A program message: `compile` with the two shader sources; any other type is ignored. */
  datatype ProgramMessage = Compile(vertexCode: string, fragmentCode: string) | Other

  /** The `GLProgram` model: its fields, and the console lines it wrote. */
  class GLProgram {
    const uid: int
    var ready: bool
    var program: Option<Handle>
    var uniforms: seq<UniformEntry>
    var vertexShaderMessage: string
    var pixelShaderMessage: string
    var programMessage: string
    var console: seq<string>

    /** The fields as one value. */
    function State(): ProgramState
      reads this
    {
      ProgramState(ready, program, uniforms, vertexShaderMessage, pixelShaderMessage, programMessage, console)
    }

    /** `initialize`: a program widget of the given uid, not yet compiled. */
    constructor(uid: int)
      ensures this.uid == uid && State() == Defaults
    {
      this.uid := uid;
      ready := false;
      program := None;
      uniforms := [];
      vertexShaderMessage := "";
      pixelShaderMessage := "";
      programMessage := "";
      console := [];
    }

    /** `createShader`: creates, sources and compiles a shader, reporting to the field of `stage`. */
    method CreateShader(ctx: Context, source: string, kind: GLenum, stage: Stage) returns (shader: Option<Handle>)
      modifies this, ctx
      ensures var o := ShaderSpec(ctx.gpu, old(ctx.calls), kind, source);
        shader == o.shader && ctx.calls == old(ctx.calls) + o.calls && State() == Report(old(State()), stage, o)
    {
      shader := ctx.Create(createShader, [Enum(kind)]);
      if shader.None? {
        console := console + ["could not create shader"];
      } else {
        ctx.Issue(shaderSource, [Object(shader), Text(source)]);
        ctx.Issue(compileShader, [Object(shader)]);
        if !ctx.gpu.compiles(shader.value) {
          var info := ctx.gpu.shaderLog(shader.value);
          if stage == VertexStage { vertexShaderMessage := info; } else { pixelShaderMessage := info; }
          shader := None;
        } else {
          if stage == VertexStage { vertexShaderMessage := "ok"; } else { pixelShaderMessage := "ok"; }
        }
      }
    }

    /** `createProgram(gl, vertexCode, fragCode)`. */
    method CreateProgram(ctx: Context, vertexCode: string, fragCode: string)
      modifies this, ctx
      ensures var r := CompileSpec(old(State()), ctx.gpu, old(ctx.calls), vertexCode, fragCode);
        State() == r.0 && ctx.calls == old(ctx.calls) + r.1
    {
      ghost var s0 := State();
      ghost var log := ctx.calls;
      ghost var b := Stages(s0.program, ctx.gpu, log, vertexCode, fragCode);
      StagesUnfold(s0.program, ctx.gpu, log, vertexCode, fragCode);
      var p := Restart(ctx);
      if p.None? {
        console := console + ["could not create program"];
      } else {
        var vs, fs := CompileShaders(ctx, vertexCode, fragCode);
        LinkAndRelease(ctx, p, vs, fs);
      }
      BuildCallsInOrder(log, b);
    }

    /** The start of `createProgram`: forget the old program (deleting it) and create a new one. */
    method Restart(ctx: Context) returns (p: Option<Handle>)
      modifies this, ctx
      ensures State() == old(State()).(ready := false, program := None, uniforms := [])
      ensures ctx.calls == old(ctx.calls) + Retire(old(program)) + [Call(createProgram, [])]
      ensures p == NewObject(ctx.gpu, old(ctx.calls) + Retire(old(program)))
    {
      ready := false;
      if program.Some? {
        ctx.Issue(deleteProgram, [Object(program)]);
      }
      program := None;
      uniforms := [];
      p := ctx.Create(createProgram, []);
    }

    /** The two `createShader` steps of `createProgram`. */
    method CompileShaders(ctx: Context, vertexCode: string, fragCode: string) returns (vs: Option<Handle>, fs: Option<Handle>)
      modifies this, ctx
      ensures var v := ShaderSpec(ctx.gpu, old(ctx.calls), VERTEX_SHADER, vertexCode);
        var f := ShaderSpec(ctx.gpu, old(ctx.calls) + v.calls, FRAGMENT_SHADER, fragCode);
        vs == v.shader && fs == f.shader && ctx.calls == old(ctx.calls) + v.calls + f.calls &&
        State() == Report(Report(old(State()), VertexStage, v), PixelStage, f)
    {
      vs := CreateShader(ctx, vertexCode, VERTEX_SHADER, VertexStage);
      fs := CreateShader(ctx, fragCode, FRAGMENT_SHADER, PixelStage);
    }

    /** The end of `createProgram`: link when both shaders compiled, then delete the shaders. */
    method LinkAndRelease(ctx: Context, p: Option<Handle>, vs: Option<Handle>, fs: Option<Handle>)
      requires p.Some?
      modifies this, ctx
      ensures ctx.calls == old(ctx.calls) + LinkCalls(p, vs, fs) + Cleanup(vs, fs)
      ensures State() == AfterLink(old(State()), ctx.gpu, p, vs, fs)
    {
      if vs.Some? && fs.Some? {
        Link(ctx, p, vs, fs);
      }
      if vs.Some? { ctx.Issue(deleteShader, [Object(vs)]); }
      if fs.Some? { ctx.Issue(deleteShader, [Object(fs)]); }
    }

    /** Attaches both shaders, links, and keeps the program if the link succeeded. */
    method Link(ctx: Context, p: Option<Handle>, vs: Option<Handle>, fs: Option<Handle>)
      requires p.Some? && vs.Some? && fs.Some?
      modifies this, ctx
      ensures ctx.calls == old(ctx.calls) + LinkCalls(p, vs, fs)
      ensures State() == AfterLink(old(State()), ctx.gpu, p, vs, fs)
    {
      ctx.Issue(attachShader, [Object(p), Object(vs)]);
      ctx.Issue(attachShader, [Object(p), Object(fs)]);
      ctx.Issue(linkProgram, [Object(p)]);
      if !ctx.gpu.links(p.value) {
        programMessage := ctx.gpu.programLog(p.value);
      } else {
        ready := true;
        program := p;
        programMessage := "ok";
      }
    }

    /** `handle_custom_messages`: a `compile` message rebuilds the program. */
    method HandleCustomMessage(ctx: Context, msg: ProgramMessage)
      modifies this, ctx
      ensures msg.Compile? ==>
        var r := CompileSpec(old(State()), ctx.gpu, old(ctx.calls), msg.vertexCode, msg.fragmentCode);
        State() == r.0 && ctx.calls == old(ctx.calls) + r.1
      ensures msg.Other? ==> State() == old(State()) && ctx.calls == old(ctx.calls)
    {
      if msg.Compile? {
        CreateProgram(ctx, msg.vertexCode, msg.fragmentCode);
      }
    }

    /**
     * `requestUniformLocation(gl, uniform_name)`: the query itself is not a recorded
     * call; it throws, changing nothing, when there is no program object.
     */
    method RequestUniformLocation(ctx: Context, name: string) returns (threw: bool, loc: Option<Location>)
      modifies this
      ensures threw <==> old(program).None?
      ensures threw ==> State() == old(State())
      ensures !threw ==> (State(), loc) == LookUp(old(State()), ctx.gpu, name).value
    {
      if program.None? {
        return true, None;
      }
      threw := false;
      loc := ctx.gpu.uniformLocation(program.value, name);
      uniforms := uniforms + [UniformEntry(name, loc)];
    }

    /**
     * `setUniform(gl, uniform_name, array_dtype, array_shape, array)`. The lookup
     * throws without a program object; once a location is found, reading the last
     * dimension of a null or undefined shape throws, the lookup being cached by then.
     */
    method SetUniform(ctx: Context, name: string, dtype: string, shape: Json, values: Arg) returns (threw: bool)
      modifies this, ctx
      ensures old(program).None? ==> threw && State() == old(State()) && ctx.calls == old(ctx.calls)
      ensures old(program).Some? ==> var (s, loc) := LookUp(old(State()), ctx.gpu, name).value;
        State() == s && threw == (loc.Some? && ShapeThrows(shape)) &&
        ctx.calls == old(ctx.calls) + (if threw then [] else UniformCalls(loc, dtype, Dims(shape), values))
    {
      var loc;
      threw, loc := RequestUniformLocation(ctx, name);
      if !threw && loc.Some? {
        if ShapeThrows(shape) {
          threw := true;
          return;
        }
        var f := UniformFn(dtype, Dims(shape));
        if f.Some? {
          ctx.Issue(f.value, [Loc(loc), values]);
        }
      }
    }

    /** `setUniformMatrix(gl, uniform_name, array_shape, array)`, which throws as `setUniform` does. */
    method SetUniformMatrix(ctx: Context, name: string, shape: Json, values: Arg) returns (threw: bool)
      modifies this, ctx
      ensures old(program).None? ==> threw && State() == old(State()) && ctx.calls == old(ctx.calls)
      ensures old(program).Some? ==> var (s, loc) := LookUp(old(State()), ctx.gpu, name).value;
        State() == s && threw == (loc.Some? && ShapeThrows(shape)) &&
        ctx.calls == old(ctx.calls) + (if threw then [] else MatrixCalls(loc, Dims(shape), values))
    {
      var loc;
      threw, loc := RequestUniformLocation(ctx, name);
      if !threw && loc.Some? {
        if ShapeThrows(shape) {
          threw := true;
          return;
        }
        var f := MatrixFn(Dims(shape));
        if f.Some? {
          ctx.Issue(f.value, [Loc(loc), Flag(false), values]);
        }
      }
    }
  }
}
