/**
 * `GLModel` of the built bundle (docs/_static/embed-bundle.js, module 625): the
 * newest front end. It stores the command batches the host sends, with the arrays
 * decoded from their binary buffers, and replays them against the WebGL2 context
 * whenever a batch arrives or the camera moves. Before the commands, every replay
 * writes the camera matrices into the view block, a uniform buffer bound to
 * binding point 0.
 *
 * The resources are the GL resource widgets registered with the model, in
 * registration order; each records its GL object and an `_info` describing it.
 * What a replay does is stated by `Bundle.Run`; the methods here are proved to do it.
 */
module BundleModel {

  import opened Wrappers
  import opened Json
  import opened GL
  import opened Matrix
  import ArrayBuffer
  import Camera
  import Viewer
  import opened Bundle

  /** The bytes of the view block: four 4x4 float32 matrices. */
  const ViewBlockSize := 256

  /** The console line of `register_resource` for a uid that is not the next position. */
  const UidMismatch := "uid not matching what we have internally"

  /** The extension that lets float textures be rendered to, requested once the view block is set up. */
  const FloatColorBuffers := Call(getExtension, [Text("EXT_color_buffer_float")])

  /**
   * The calls `initialize` makes with a context: the view block is sized to 256
   * bytes through UNIFORM_BUFFER, which is then unbound, and bound to uniform
   * binding point 0.
   */
  function ViewBlockSetup(vb: Option<Handle>): seq<Call>
  {
    [Call(bindBuffer, [Enum(UNIFORM_BUFFER), Object(vb)]),
     Call(bufferData, [Enum(UNIFORM_BUFFER), Num(ViewBlockSize), Enum(DYNAMIC_DRAW)]),
     Call(bindBuffer, [Enum(UNIFORM_BUFFER), Object(None)]),
     Call(bindBufferBase, [Enum(UNIFORM_BUFFER), Num(0), Object(vb)])]
  }

  /** The view block written from the camera attributes: the camera, view, projection and view-projection matrices of their pose. */
  function CameraUpload(vb: Option<Handle>, major: string, projection: Mat4, p: Camera.Pose): seq<Call>
    requires p.Valid()
  {
    ViewBlockCalls(vb, major == "row_major", [Camera.CameraMatrix(p), Camera.ViewMatrix(p), projection, Camera.ViewProjection(projection, p)])
  }

  /**
   * The calls that open every replay: the four matrices (camera, view, projection,
   * view-projection), each transposed for row-major shaders, written one after the
   * other into the view block.
   */
  function ViewBlockCalls(vb: Option<Handle>, rowMajor: bool, matrices: seq<Mat4>): seq<Call>
    requires |matrices| == 4
  {
    [Call(bindBuffer, [Enum(UNIFORM_BUFFER), Object(vb)]),
     MatrixWrite(0, matrices[0], rowMajor), MatrixWrite(1, matrices[1], rowMajor),
     MatrixWrite(2, matrices[2], rowMajor), MatrixWrite(3, matrices[3], rowMajor),
     Call(bindBuffer, [Enum(UNIFORM_BUFFER), Object(None)])]
  }

  /** `bufferSubData` of matrix k at byte offset 64k of the view block. */
  function MatrixWrite(k: nat, matrix: Mat4, rowMajor: bool): Call
  {
    Call(bufferSubData, [Enum(UNIFORM_BUFFER), Num(64 * k), Floats(Camera.Uploaded(matrix, rowMajor)), Num(0)])
  }

  /**
   * The four writes fill the view block without overlap: matrix k occupies bytes
   * 64k to 64k+63, which lie inside the 256 bytes `initialize` allocates, and a
   * row-major shader reading the block transposes it back to the matrix.
   */
  lemma ViewBlockLayout(vb: Option<Handle>, rowMajor: bool, matrices: seq<Mat4>)
    requires |matrices| == 4
    ensures var r := ViewBlockCalls(vb, rowMajor, matrices);
      forall k | 0 <= k < 4 ::
        var offset := r[k + 1].args[1].n; var data := r[k + 1].args[2].m;
        offset == 64 * k && offset + 4 * |data| <= ViewBlockSize &&
        (k > 0 ==> r[k].args[1].n + 4 * |r[k].args[2].m| <= offset) &&
        (rowMajor ==> Transpose(data) == matrices[k]) && (!rowMajor ==> data == matrices[k])
  {
    forall k | 0 <= k < 4 {
      Camera.UploadedRestores(matrices[k], rowMajor);
    }
  }

/** The state a replay starts from: the view block upload appended to the calls made so far. */
  function Opened(m: Machine, upload: seq<Call>): (r: Machine)
    requires m.Fits()
    ensures r.Fits() && r == m.(calls := m.calls + upload)
  {
    m.(calls := m.calls + upload)
  }

  /**
   * The replay a batch of commands cs with arrays a sets off, from state m with the
   * view block upload `upload`, when `stored` and `arrays` are the commands and
   * arrays already kept: a batch marked `only_once` runs on its own arrays, then,
   * unless it threw, the stored commands run; any other batch is appended, its
   * array indices moved past the arrays kept, and everything runs.
   */
  ghost function Handled(gpu: Gpu, m: Machine, upload: seq<Call>, stored: seq<Json>, arrays: seq<ArrayBuffer.View>,
                         cs: seq<Json>, a: seq<ArrayBuffer.View>, once: bool): Outcome
    requires m.Fits()
  {
    if once then Then(Run(Scene(gpu, a), Opened(m, upload), cs), Scene(gpu, arrays), upload, stored)
    else Run(Scene(gpu, arrays + a), Opened(m, upload), stored + Rebase(cs, |arrays|))
  }

  /** A second replay of cs, after the view block upload, unless the first one threw. */
  ghost function Then(first: Outcome, s: Scene, upload: seq<Call>, cs: seq<Json>): Outcome
    requires first.state.Fits()
  {
    if first.threw then first else Run(s, Opened(first.state, upload), cs)
  }

  /** A batch marked `only_once` is its own run followed by the stored commands'. */
  lemma HandledOnce(gpu: Gpu, m: Machine, upload: seq<Call>, stored: seq<Json>, arrays: seq<ArrayBuffer.View>,
                    cs: seq<Json>, a: seq<ArrayBuffer.View>, first: Outcome)
    requires m.Fits() && first == Run(Scene(gpu, a), Opened(m, upload), cs)
    ensures first.state.Fits()
    ensures Handled(gpu, m, upload, stored, arrays, cs, a, true) == Then(first, Scene(gpu, arrays), upload, stored)
  {
  }

  /**
   * `GLModel`: the context (null when the browser has no WebGL2), the view block,
   * the resource registry and what is bound, the stored commands and their decoded
   * arrays, the console, and the widget attributes the replay reads with the
   * matrices `update_camera` derives from them.
   */
  class GLModel {
    const ctx: Context?
    const trig: Camera.Trig
    var viewBlock: Option<Handle>
    var resources: seq<Resource>
    var boundBuffers: map<Json, Option<nat>>
    var boundProgram: Option<nat>
    var boundVao: Option<nat>
    var commands: seq<Json>
    var buffers: seq<ArrayBuffer.View>
    var console: seq<string>
    var shaderMatrixMajor: string
    var cameraPos: Vec3
    var cameraYaw: real
    var cameraPitch: real
    var projection: Mat4
    var camera: Mat4
    var view: Mat4
    var viewProjection: Option<Mat4>

    /** The bindings name registered resources, and the trigonometry is real. */
    ghost predicate Valid()
      reads this`resources, this`boundBuffers, this`boundProgram, this`boundVao
    {
      trig.Valid() && Machine([], [], resources, boundBuffers, boundProgram, boundVao).Fits()
    }

    /** What a replay changes, as a value (no calls without a context). */
    function Snapshot(): Machine
      reads this`console, this`resources, this`boundBuffers, this`boundProgram, this`boundVao, ctx
    {
      Machine(if ctx == null then [] else ctx.calls, console, resources, boundBuffers, boundProgram, boundVao)
    }

    /** `get_resource(uid)`: the resource at that position, unchecked; none outside the registry. */
    function GetResource(uid: Json): (r: Option<Resource>)
      reads this`resources
      ensures r.Some? <==> ArrayIndex(uid, |resources|).Some?
      ensures forall i: nat | i < |resources| && uid == JNum(i as real) :: r == Some(resources[i])
    {
      var i := ArrayIndex(uid, |resources|);
      if i.Some? then Some(resources[i.value]) else None
    }

    /** The pose the camera attributes describe. */
    function Pose(): Camera.Pose
      requires trig.Valid()
      reads this`cameraPos, this`cameraYaw, this`cameraPitch
    {
      Camera.PoseOf(trig, cameraPos, cameraYaw, cameraPitch)
    }

    /**
     * `initialize`: with a context, the view block is created and set up; without
     * one, the console says so. Then the canvas is sized, and the camera matrix is
     * the translation to the default position.
     */
    constructor(ctx: Context?, trig: Camera.Trig, width: nat, height: nat, tanHalfFov: real)
      requires trig.Valid() && width > 0 && height > 0 && tanHalfFov != 0.0
      modifies ctx
      ensures this.ctx == ctx && this.trig == trig && Valid()
      ensures resources == [] && commands == [] && buffers == [] && boundBuffers == map[]
      ensures shaderMatrixMajor == "row_major" && cameraPos == [0.0, 50.0, 200.0] && cameraYaw == 0.0 && cameraPitch == 0.0
      ensures ctx != null ==> (viewBlock == NewObject(ctx.gpu, old(ctx.calls)) &&
        Snapshot() == Machine(old(ctx.calls) + [Call(createBuffer, [])] + ViewBlockSetup(viewBlock) + [FloatColorBuffers, Viewer.Viewport(width, height)],
                              [], [], map[], None, None))
      ensures ctx == null ==> Snapshot() == Machine([], [Viewer.NoContextError], [], map[], None, None)
      ensures projection == Viewer.CanvasProjection(width, height, tanHalfFov)
      ensures camera == Translation(0.0, 50.0, 200.0) && view == Inverse(camera) && viewProjection.None?
    {
      this.ctx := ctx;
      this.trig := trig;
      resources := [];
      boundBuffers := map[];
      boundProgram := None;
      boundVao := None;
      commands := [];
      buffers := [];
      shaderMatrixMajor := "row_major";
      cameraPos := [0.0, 50.0, 200.0];
      cameraYaw := 0.0;
      cameraPitch := 0.0;
      projection := Viewer.CanvasProjection(width, height, tanHalfFov);
      Camera.TranslationIsInvertible(0.0, 50.0, 200.0);
      camera := Translation(0.0, 50.0, 200.0);
      view := Inverse(Translation(0.0, 50.0, 200.0));
      viewProjection := None;
      console := if ctx == null then [Viewer.NoContextError] else [];
      viewBlock := None;
      new;
      if ctx != null {
        viewBlock := ctx.Create(createBuffer, []);
        ctx.IssueAll(ViewBlockSetup(viewBlock));
        ctx.Issue(FloatColorBuffers.fn, FloatColorBuffers.args);
        ctx.Issue(viewport, [Num(0), Num(0), Num(width), Num(height)]);
      }
    }

    /** `resizeCanvas`, on a change of `width` or `height`: the viewport follows the canvas, and so does the projection. */
    method ResizeCanvas(width: nat, height: nat, tanHalfFov: real)
      requires width > 0 && height > 0 && tanHalfFov != 0.0
      modifies this`projection, ctx
      ensures Snapshot() == old(Snapshot()).(calls := old(Snapshot()).calls + if ctx == null then [] else [Viewer.Viewport(width, height)])
      ensures projection == Viewer.CanvasProjection(width, height, tanHalfFov)
    {
      if ctx != null {
        ctx.Issue(viewport, [Num(0), Num(0), Num(width), Num(height)]);
      }
      projection := Viewer.CanvasProjection(width, height, tanHalfFov);
    }

    /**
     * `register_resource`: the resource is always appended; a uid other than its
     * position only earns a console error.
     */
    method RegisterResource(r: Resource)
      requires Valid()
      modifies this`resources, this`console
      ensures Valid()
      ensures resources == old(resources) + [r] && GetResource(JNum(|old(resources)| as real)) == Some(r)
      ensures console == old(console) + if r.uid == |old(resources)| then [] else [UidMismatch]
    {
      if r.uid != |resources| {
        console := console + [UidMismatch];
      }
      resources := resources + [r];
    }

    /** The matrices `update_camera` keeps are those of pose p. */
    ghost predicate Posed(p: Camera.Pose)
      requires p.Valid()
      reads this`projection, this`camera, this`view, this`viewProjection
    {
      camera == Camera.CameraMatrix(p) && view == Camera.ViewMatrix(p) && viewProjection == Some(Camera.ViewProjection(projection, p))
    }

    /**
     * `handle_custom_messages(msg, buffers)`: `clear` empties the stored commands
     * and arrays first; the arrays of the message's commands are decoded; a batch
     * marked `only_once` is run on its own arrays and not stored, any other is
     * appended, its metadata indices moved past the arrays already stored; then the
     * stored commands are replayed. A message without a command array (null, a
     * list, or an object with no `commands` list), or whose arrays do not decode,
     * throws before anything runs.
     */
    method HandleCustomMessages(msg: Json, bytes: seq<seq<ArrayBuffer.Byte>>) returns (threw: bool)
      requires Valid()
      modifies this`commands, this`buffers, this`camera, this`view, this`viewProjection
      modifies this`console, this`resources, this`boundBuffers, this`boundProgram, this`boundVao, ctx
      ensures Valid()
      ensures var stored := if LooselyEquals(Field(msg, "clear"), 1) then [] else old(commands);
              var arrays := if LooselyEquals(Field(msg, "clear"), 1) then [] else old(buffers);
              var cs := Field(msg, "commands");
        (!cs.JArr? || Decode(cs.items, bytes).None? ==> threw && commands == stored && buffers == arrays && Snapshot() == old(Snapshot())) &&
        (cs.JArr? && Decode(cs.items, bytes).Some? ==>
          var a := Decode(cs.items, bytes).value;
          (LooselyEquals(Field(msg, "only_once"), 1) ==> commands == stored && buffers == arrays) &&
          (!LooselyEquals(Field(msg, "only_once"), 1) ==> commands == stored + Rebase(cs.items, |arrays|) && buffers == arrays + a) &&
          (ctx == null ==> !threw && Snapshot() == old(Snapshot())) &&
          (ctx != null ==>
            Posed(old(Pose())) &&
            Outcome(Snapshot(), threw) == Handled(ctx.gpu, old(Snapshot()), CameraUpload(viewBlock, shaderMatrixMajor, projection, old(Pose())), stored, arrays, cs.items, a, LooselyEquals(Field(msg, "only_once"), 1))))
    {
      ghost var p, m := Pose(), Snapshot();
      if LooselyEquals(Field(msg, "clear"), 1) {
        commands := [];
        buffers := [];
      }
      var cs := Field(msg, "commands");
      if !cs.JArr? {
        return true;
      }
      var a := DecodeArrays(cs.items, bytes);
      if a.None? {
        return true;
      }
      if LooselyEquals(Field(msg, "only_once"), 1) {
        threw := RunOnce(cs.items, a.value, p, m);
      } else {
        threw := StoreAndRun(cs.items, a.value, p, m);
      }
    }

    /** A batch marked `only_once`: run on its own arrays, then, unless it threw, the stored commands. */
    method RunOnce(cs: seq<Json>, a: seq<ArrayBuffer.View>, ghost p: Camera.Pose, ghost m: Machine) returns (threw: bool)
      requires Valid() && p == Pose() && m == Snapshot()
      modifies this`camera, this`view, this`viewProjection
      modifies this`console, this`resources, this`boundBuffers, this`boundProgram, this`boundVao, ctx
      ensures Valid()
      ensures ctx == null ==> !threw && Snapshot() == m
      ensures ctx != null ==>
        Posed(p) && Outcome(Snapshot(), threw) == Handled(ctx.gpu, m, CameraUpload(viewBlock, shaderMatrixMajor, projection, p), commands, buffers, cs, a, true)
    {
      threw := ExecuteCommands(cs, a, p, m);
      ghost var first := Outcome(Snapshot(), threw);
      threw := RunStored(threw, p, Snapshot());
      if ctx != null {
        HandledOnce(ctx.gpu, m, CameraUpload(viewBlock, shaderMatrixMajor, projection, p), commands, buffers, cs, a, first);
      }
    }

    /** The stored commands, replayed after a batch marked `only_once` unless that batch threw. */
    method RunStored(before: bool, ghost p: Camera.Pose, ghost first: Machine) returns (threw: bool)
      requires Valid() && p == Pose() && first == Snapshot() && (ctx == null ==> !before) && (ctx != null ==> Posed(p))
      modifies this`camera, this`view, this`viewProjection
      modifies this`console, this`resources, this`boundBuffers, this`boundProgram, this`boundVao, ctx
      ensures Valid()
      ensures ctx == null ==> !threw && Snapshot() == first
      ensures ctx != null ==>
        Posed(p) && Outcome(Snapshot(), threw) == Then(Outcome(first, before), Scene(ctx.gpu, buffers), CameraUpload(viewBlock, shaderMatrixMajor, projection, p), commands)
    {
      if before {
        return true;
      }
      threw := ExecuteCommands(commands, buffers, p, first);
    }

    /** Any other batch: stored after the commands already there, its array indices moved past theirs, and everything replayed. */
    method StoreAndRun(cs: seq<Json>, a: seq<ArrayBuffer.View>, ghost p: Camera.Pose, ghost m: Machine) returns (threw: bool)
      requires Valid() && p == Pose() && m == Snapshot()
      modifies this`commands, this`buffers, this`camera, this`view, this`viewProjection
      modifies this`console, this`resources, this`boundBuffers, this`boundProgram, this`boundVao, ctx
      ensures Valid()
      ensures commands == old(commands) + Rebase(cs, |old(buffers)|) && buffers == old(buffers) + a
      ensures ctx == null ==> !threw && Snapshot() == m
      ensures ctx != null ==>
        Posed(p) && Outcome(Snapshot(), threw) == Handled(ctx.gpu, m, CameraUpload(viewBlock, shaderMatrixMajor, projection, p), old(commands), old(buffers), cs, a, false)
    {
      var rebased := RebaseCommands(cs, |buffers|);
      buffers := buffers + a;
      commands := commands + rebased;
      threw := ExecuteCommands(commands, buffers, p, m);
    }

    /**
     * A change of `camera_pos`, `camera_yaw` or `camera_pitch`: the attributes take
     * the new values and, when one changed, `run_commands` replays the stored
     * commands from the new camera.
     */
    method SetCamera(pos: Vec3, yaw: real, pitch: real) returns (changed: bool, threw: bool)
      requires Valid()
      modifies this`cameraPos, this`cameraYaw, this`cameraPitch, this`camera, this`view, this`viewProjection
      modifies this`console, this`resources, this`boundBuffers, this`boundProgram, this`boundVao, ctx
      ensures Valid() && cameraPos == pos && cameraYaw == yaw && cameraPitch == pitch
      ensures changed == (pos != old(cameraPos) || yaw != old(cameraYaw) || pitch != old(cameraPitch))
      ensures !changed || ctx == null ==> !threw && Snapshot() == old(Snapshot())
      ensures changed && ctx != null ==>
        Posed(Pose()) && Outcome(Snapshot(), threw) == Run(Scene(ctx.gpu, buffers), Opened(old(Snapshot()), CameraUpload(viewBlock, shaderMatrixMajor, projection, Pose())), commands)
    {
      changed := pos != cameraPos || yaw != cameraYaw || pitch != cameraPitch;
      threw := false;
      if changed {
        threw := MoveCamera(pos, yaw, pitch, Snapshot());
      }
    }

    /** `run_commands` after the camera attributes change: the stored commands replayed from the new pose. */
    method MoveCamera(pos: Vec3, yaw: real, pitch: real, ghost m: Machine) returns (threw: bool)
      requires Valid() && m == Snapshot()
      modifies this`cameraPos, this`cameraYaw, this`cameraPitch, this`camera, this`view, this`viewProjection
      modifies this`console, this`resources, this`boundBuffers, this`boundProgram, this`boundVao, ctx
      ensures Valid() && cameraPos == pos && cameraYaw == yaw && cameraPitch == pitch
      ensures ctx == null ==> !threw && Snapshot() == m
      ensures ctx != null ==>
        Posed(Pose()) && Outcome(Snapshot(), threw) == Run(Scene(ctx.gpu, buffers), Opened(m, CameraUpload(viewBlock, shaderMatrixMajor, projection, Pose())), commands)
    {
      ghost var p := Camera.PoseOf(trig, pos, yaw, pitch);
      cameraPos, cameraYaw, cameraPitch := pos, yaw, pitch;
      threw := ExecuteCommands(commands, buffers, p, m);
    }

    /**
     * `execute_commands(cs, views)`, from pose p and state m: nothing without a
     * context; otherwise `update_camera`, the four matrices written into the view
     * block, and the commands run in order until one throws.
     */
    method ExecuteCommands(cs: seq<Json>, views: seq<ArrayBuffer.View>, ghost p: Camera.Pose, ghost m: Machine) returns (threw: bool)
      requires Valid() && p == Pose() && m == Snapshot()
      modifies this`camera, this`view, this`viewProjection
      modifies this`console, this`resources, this`boundBuffers, this`boundProgram, this`boundVao, ctx
      ensures Valid()
      ensures ctx == null ==> !threw && Snapshot() == m && camera == old(camera) && view == old(view) && viewProjection == old(viewProjection)
      ensures ctx != null ==> Posed(p) && Outcome(Snapshot(), threw) == Run(Scene(ctx.gpu, views), Opened(m, CameraUpload(viewBlock, shaderMatrixMajor, projection, p)), cs)
    {
      if ctx == null {
        return false;
      }
      UpdateCamera(Pose());
      threw := Replay(cs, Scene(ctx.gpu, views), Snapshot());
    }

    /** `update_camera` for pose p: its camera, view, projection and view-projection matrices written into the view block, and kept. */
    method UpdateCamera(p: Camera.Pose)
      requires Valid() && ctx != null && p.Valid()
      modifies this`camera, this`view, this`viewProjection, ctx
      ensures Posed(p) && Snapshot() == Opened(old(Snapshot()), CameraUpload(viewBlock, shaderMatrixMajor, projection, p))
    {
      var matrices := [Camera.CameraMatrix(p), Camera.ViewMatrix(p), projection, Camera.ViewProjection(projection, p)];
      ctx.IssueAll(ViewBlockCalls(viewBlock, shaderMatrixMajor == "row_major", matrices));
      camera, view, viewProjection := matrices[0], matrices[1], Some(matrices[3]);
    }

    /** The `forEach` of `execute_commands`: the commands in order, until one throws. */
    method Replay(cs: seq<Json>, s: Scene, ghost m: Machine) returns (threw: bool)
      requires Valid() && ctx != null && s.gpu == ctx.gpu && m == Snapshot()
      modifies this`console, this`resources, this`boundBuffers, this`boundProgram, this`boundVao, ctx
      ensures Valid()
      ensures Outcome(Snapshot(), threw) == Run(s, m, cs)
    {
      threw := false;
      var i := 0;
      while i < |cs| && !threw
        invariant 0 <= i <= |cs|
        invariant Valid() && m.Fits()
        invariant Outcome(Snapshot(), threw) == Run(s, m, cs[..i])
        decreases |cs| - i
      {
        threw := ExecuteNext(cs, i, s, m);
        i := i + 1;
      }
      if threw {
        RunStopsAtThrow(s, m, cs[..i], cs[i..]);
        assert cs[..i] + cs[i..] == cs;
      } else {
        assert cs[..i] == cs;
      }
    }

    /** One turn of the `forEach`, after commands that did not throw. */
    method ExecuteNext(cs: seq<Json>, i: nat, s: Scene, ghost m: Machine) returns (threw: bool)
      requires Valid() && ctx != null && s.gpu == ctx.gpu && m.Fits() && i < |cs|
      requires Outcome(Snapshot(), false) == Run(s, m, cs[..i])
      modifies this`console, this`resources, this`boundBuffers, this`boundProgram, this`boundVao, ctx
      ensures Valid()
      ensures Outcome(Snapshot(), threw) == Run(s, m, cs[..i + 1])
    {
      RunPrefixExtends(s, m, cs, i);
      threw := ExecuteCommand(cs[i], s, Snapshot());
    }

    /** `execute_command`: a null or undefined command throws; a `cmd` that is no case label is skipped. */
    method ExecuteCommand(c: Json, s: Scene, ghost m: Machine) returns (threw: bool)
      requires Valid() && ctx != null && s.gpu == ctx.gpu && m == Snapshot()
      modifies this`console, this`resources, this`boundBuffers, this`boundProgram, this`boundVao, ctx
      ensures Valid()
      ensures Outcome(Snapshot(), threw) == Step(s, m, c)
    {
      if Prop(c, "cmd").Failure? {
        return true;
      }
      var kind := KindOf(c);
      if kind.None? {
        return false;
      }
      threw := DispatchCommand(c, kind.value, s, m);
    }

    /** The `switch (cmd)` of `execute_command`, for a command whose `cmd` is a case label. */
    method DispatchCommand(c: Json, k: Kind, s: Scene, ghost m: Machine) returns (threw: bool)
      requires Valid() && ctx != null && s.gpu == ctx.gpu && m == Snapshot()
      modifies this`console, this`resources, this`boundBuffers, this`boundProgram, this`boundVao, ctx
      ensures Valid()
      ensures Outcome(Snapshot(), threw) == Dispatch(s, m, c, k)
    {
      DispatchGroups(s, m, c, k);
      if FixedCall(c, k).Some? || CallsOnly(k) {
        threw := ContextCommand(c, k, s);
      } else if k.Creates() {
        threw := CreateCommand(c, k, s);
      } else if k.OnAttribute() {
        threw := VertexAttribCommand(c, k, s);
      } else if k.OnProgram() {
        threw := ProgramCommand(c, k, s);
      } else if k.Binds() {
        threw := BindingCommand(c, k, s);
      } else {
        threw := BufferCommand(c, k, s);
      }
    }

    /** `compileShader` and `linkProgram`. */
    method ProgramCommand(c: Json, k: Kind, s: Scene) returns (threw: bool)
      requires Valid() && ctx != null && s.gpu == ctx.gpu && k.OnProgram()
      modifies this`resources, ctx
      ensures Valid()
      ensures Outcome(Snapshot(), threw) == ProgramStep(s, old(Snapshot()), c, k)
    {
      if k == CompileShader {
        threw := CompileCommand(c, s);
      } else {
        threw := LinkCommand(c, s);
      }
    }

    /** The bind cases, `uniform` and `uniformMatrix`. */
    method BindingCommand(c: Json, k: Kind, s: Scene) returns (threw: bool)
      requires Valid() && ctx != null && s.gpu == ctx.gpu && k.Binds()
      modifies this`boundBuffers, this`boundProgram, this`boundVao, ctx
      ensures Valid()
      ensures Outcome(Snapshot(), threw) == BindingStep(s, old(Snapshot()), c, k)
    {
      if k == Uniform || k == UniformMatrix {
        threw := UniformCommand(c, k, s);
      } else {
        threw := BindCommand(c, k, s);
      }
    }

    /** The buffer cases, and the labels that change nothing here. */
    method BufferCommand(c: Json, k: Kind, s: Scene) returns (threw: bool)
      requires Valid() && ctx != null && s.gpu == ctx.gpu
      modifies this`resources, this`boundBuffers, ctx
      ensures Valid()
      ensures Outcome(Snapshot(), threw) == BufferStep(s, old(Snapshot()), c, k)
    {
      ghost var m := Snapshot();
      if k == BufferData {
        assert BufferStep(s, m, c, k) == BufferDataStep(s, m, c);
        threw := BufferDataCommand(c, s);
      } else if k == CreateUniformBuffer {
        assert BufferStep(s, m, c, k) == CreateUniformBufferStep(s, m, c);
        threw := CreateUniformBufferCommand(c, s);
      } else if k == BufferSubData || k == BufferSubDataStr {
        assert BufferStep(s, m, c, k) == BufferSubDataStep(s, m, c, k == BufferSubDataStr);
        threw := BufferSubDataCommand(c, k, s);
      } else {
        threw := false;
      }
    }

    /** The cases that only make context calls: fixed argument lists, or calls on looked-up resources. */
    method ContextCommand(c: Json, k: Kind, s: Scene) returns (threw: bool)
      requires Valid() && ctx != null && s.gpu == ctx.gpu && (FixedCall(c, k).Some? || CallsOnly(k))
      modifies ctx
      ensures Outcome(Snapshot(), threw) == ContextStep(s, old(Snapshot()), c, k)
    {
      if FixedCall(c, k).Some? {
        threw := FixedCommand(c, k, s);
      } else {
        threw := CallsCommand(c, k, s);
      }
    }

    /** A case whose one call takes its arguments from the command alone. */
    method FixedCommand(c: Json, k: Kind, s: Scene) returns (threw: bool)
      requires Valid() && ctx != null && s.gpu == ctx.gpu && FixedCall(c, k).Some?
      modifies ctx
      ensures Outcome(Snapshot(), threw) == ContextStep(s, old(Snapshot()), c, k)
    {
      var fixed := FixedCall(c, k);
      ctx.Issue(fixed.value.fn, fixed.value.args);
      threw := false;
    }

    /** A case whose calls take resources or arrays: it throws when a lookup does. */
    method CallsCommand(c: Json, k: Kind, s: Scene) returns (threw: bool)
      requires Valid() && ctx != null && s.gpu == ctx.gpu && FixedCall(c, k).None? && CallsOnly(k)
      modifies ctx
      ensures Outcome(Snapshot(), threw) == ContextStep(s, old(Snapshot()), c, k)
    {
      var cs := ContextCalls(s, Snapshot(), c, k);
      if cs.None? {
        return true;
      }
      ctx.IssueAll(cs.value);
      threw := false;
    }

    /** The create cases: the object is created, then stored in the resource `resource` names. */
    method CreateCommand(c: Json, k: Kind, s: Scene) returns (threw: bool)
      requires Valid() && ctx != null && s.gpu == ctx.gpu && k.Creates()
      modifies this`resources, ctx
      ensures Valid()
      ensures Outcome(Snapshot(), threw) == CreateStep(s, old(Snapshot()), c, k)
    {
      var (call, info) := Creation(c, k);
      var h := ctx.Create(call.fn, call.args);
      var i := ArrayIndex(Field(c, "resource"), |resources|);
      if i.None? {
        return true;
      }
      resources := resources[i.value := resources[i.value].(ptr := h, info := info)];
      threw := false;
    }

    /** `compileShader`: the shader's message becomes "compiled" or its log. */
    method CompileCommand(c: Json, s: Scene) returns (threw: bool)
      requires Valid() && ctx != null && s.gpu == ctx.gpu
      modifies this`resources, ctx
      ensures Valid()
      ensures Outcome(Snapshot(), threw) == CompileStep(s, old(Snapshot()), c)
    {
      var i := ArrayIndex(Field(c, "shader"), |resources|);
      if i.None? || resources[i.value].ptr.None? {
        return true;
      }
      var r := resources[i.value];
      ctx.Issue(compileShader, [Object(r.ptr)]);
      var message := if Compiled(ctx.gpu, r.ptr) then JStr("compiled") else JStr(ctx.gpu.shaderLog(r.ptr.value));
      resources := resources[i.value := r.(info := r.info.(message := Some(message)))];
      threw := false;
    }

    /**
     * `linkProgram`: a program that links gets its view block bound and its
     * uniforms and attributes collected; one that does not gets its program log.
     */
    method LinkCommand(c: Json, s: Scene) returns (threw: bool)
      requires Valid() && ctx != null && s.gpu == ctx.gpu
      modifies this`resources, ctx
      ensures Valid()
      ensures Outcome(Snapshot(), threw) == LinkStep(s, old(Snapshot()), c)
    {
      var i := ArrayIndex(Field(c, "program"), |resources|);
      if i.None? || resources[i.value].ptr.None? {
        return true;
      }
      LinkAtCommand(i.value);
      threw := false;
    }

    /** Linking and validating the program at `i`, then recording what became of it. */
    method LinkAtCommand(i: nat)
      requires Valid() && ctx != null && i < |resources| && resources[i].ptr.Some?
      modifies this`resources, ctx
      ensures Valid()
      ensures Snapshot() == LinkAt(ctx.gpu, old(Snapshot()), i)
    {
      var a := resources[i].ptr;
      ctx.Issue(linkProgram, [Object(a)]);
      ctx.Issue(validateProgram, [Object(a)]);
      if Linked(ctx.gpu, a) {
        RecordLinked(i);
      } else {
        resources := resources[i := resources[i].(info := resources[i].info.(message := Some(JStr(ctx.gpu.programLog(a.value)))))];
      }
    }

    /** The view block binding, uniforms and attributes of the program at `i`, which linked. */
    method RecordLinked(i: nat)
      requires Valid() && ctx != null && i < |resources| && Linked(ctx.gpu, resources[i].ptr)
      modifies this`resources, ctx
      ensures Valid()
      ensures Snapshot() == LinkedState(ctx.gpu, old(Snapshot()), i)
    {
      var r := resources[i];
      var h := r.ptr.value;
      ctx.IssueAll(ViewBlockBinding(ctx.gpu, h));
      var blocks, loose := CollectUniforms(ctx.gpu, h);
      var attributes := CollectAttributes(ctx.gpu, h);
      var info := r.info.(message := Some(JStr("linked")), blocks := Some(blocks), uniforms := Some(loose), attributes := Some(attributes));
      assert info == LinkedInfo(ctx.gpu, h, r.info);
      resources := resources[i := r.(info := info)];
    }

    /** `useProgram`, `bindVertexArray` and `bindBuffer`: a negative or missing index unbinds. */
    method BindCommand(c: Json, k: Kind, s: Scene) returns (threw: bool)
      requires Valid() && ctx != null && (k == UseProgram || k == BindVertexArray || k == BindBuffer)
      modifies this`boundBuffers, this`boundProgram, this`boundVao, ctx
      ensures Valid()
      ensures Outcome(Snapshot(), threw) == BindStep(old(Snapshot()), c, k)
    {
      var j := Field(c, BindField(k));
      var i: Option<nat> := None;
      if AtLeast(j, 0) {
        i := ArrayIndex(j, |resources|);
        if i.None? {
          return true;
        }
      }
      var bound := Object(if i.Some? then resources[i.value].ptr else None);
      if k == UseProgram {
        ctx.Issue(useProgram, [bound]);
        boundProgram := i;
      } else if k == BindVertexArray {
        ctx.Issue(bindVertexArray, [bound]);
        boundVao := i;
      } else {
        ctx.Issue(bindBuffer, [Constant(c, "target"), bound]);
        boundBuffers := boundBuffers[Field(c, "target") := i];
      }
      threw := false;
    }

    /** `uniform` and `uniformMatrix`, on the bound program. */
    method UniformCommand(c: Json, k: Kind, s: Scene) returns (threw: bool)
      requires Valid() && ctx != null && s.gpu == ctx.gpu && (k == Uniform || k == UniformMatrix)
      modifies ctx
      ensures Outcome(Snapshot(), threw) == UniformStep(s, old(Snapshot()), c, k == UniformMatrix)
    {
      var matrix := k == UniformMatrix;
      if boundProgram.None? {
        return false;
      }
      var uniforms := resources[boundProgram.value].info.uniforms;
      if uniforms.None? {
        return true;
      }
      var u := FindUniform(uniforms.value, Field(c, "name"));
      if u.None? {
        return false;
      }
      var cs := Upload(s, c, u.value.location, matrix);
      if cs.None? {
        return true;
      }
      ctx.IssueAll(cs.value);
      threw := false;
    }

    /** `bufferData`, updating the info of the buffer bound at the target when asked. */
    method BufferDataCommand(c: Json, s: Scene) returns (threw: bool)
      requires Valid() && ctx != null && s.gpu == ctx.gpu
      modifies this`resources, ctx
      ensures Valid()
      ensures Outcome(Snapshot(), threw) == BufferDataStep(s, old(Snapshot()), c)
    {
      var target := Field(c, "target");
      var data := MetadataArray(s, c);
      if data.None? {
        return true;
      }
      ctx.Issue(bufferData, [Constant(c, "target"), data.value, Constant(c, "usage")]);
      var n := if target in boundBuffers then boundBuffers[target] else None;
      if Truthy(Field(c, "update_info")) && n.Some? {
        var size := if HasOwn(c, "buffer_metadata") then JNum(ctx.gpu.bufferSize(target) as real) else JStr("Undefined");
        resources := resources[n.value := resources[n.value].(info := BufferInfo(size, target))];
      }
      threw := false;
    }

    /** `createUniformBuffer`: a buffer sized for a block of the program. */
    method CreateUniformBufferCommand(c: Json, s: Scene) returns (threw: bool)
      requires Valid() && ctx != null && s.gpu == ctx.gpu
      modifies this`resources, this`boundBuffers, ctx
      ensures Valid()
      ensures Outcome(Snapshot(), threw) == CreateUniformBufferStep(s, old(Snapshot()), c)
    {
      var a := ctx.Create(createBuffer, []);
      var p := ArrayIndex(Field(c, "program"), |resources|);
      if p.None? || resources[p.value].info.blocks.None? {
        return true;
      }
      var n := FindBlock(resources[p.value].info.blocks.value, Field(c, "block_name"));
      var info := Typed(JStr("Buffer"));
      if n.Some? {
        ctx.IssueAll(UniformBufferCalls(a, n.value.size, Field(c, "usage")));
        boundBuffers := boundBuffers[JStr("UNIFORM_BUFFER") := None];
        info := info.(size := Some(JNum(n.value.size as real)), target := Some(JStr("UNIFORM_BUFFER")), uniformBlock := n);
      }
      var r := ArrayIndex(Field(c, "buffer"), |resources|);
      if r.None? {
        return true;
      }
      resources := resources[r.value := resources[r.value].(ptr := a, info := info)];
      threw := false;
    }

    /** `bufferSubData` and `bufferSubDataStr`. */
    method BufferSubDataCommand(c: Json, k: Kind, s: Scene) returns (threw: bool)
      requires Valid() && ctx != null && s.gpu == ctx.gpu && (k == BufferSubData || k == BufferSubDataStr)
      modifies ctx
      ensures Outcome(Snapshot(), threw) == BufferSubDataStep(s, old(Snapshot()), c, k == BufferSubDataStr)
    {
      var named := k == BufferSubDataStr;
      var offset := SubDataOffset(Snapshot(), c, named);
      if offset.None? {
        return true;
      }
      var call := SubDataCall(s, c, offset.value);
      if call.None? {
        return true;
      }
      ctx.Issue(call.value.fn, call.value.args);
      threw := false;
    }

    /**
     * The vertex-attribute cases: the index is a number, or the name of an
     * attribute of the bound program (-1 when there is none, or no bound program);
     * a negative location is reported instead of used.
     */
    method VertexAttribCommand(c: Json, k: Kind, s: Scene) returns (threw: bool)
      requires Valid() && ctx != null && s.gpu == ctx.gpu && k.OnAttribute()
      modifies this`console, this`resources, ctx
      ensures Valid()
      ensures Outcome(Snapshot(), threw) == VertexAttribStep(s, old(Snapshot()), c, k)
    {
      var resolved := Locate(Field(c, "index"));
      if resolved.None? {
        return true;
      }
      threw := ResolvedAttribCommand(c, k, resolved.value, s);
    }

    /** The attribute calls at a resolved location, or the report of a negative one. */
    method ResolvedAttribCommand(c: Json, k: Kind, resolved: Resolved, s: Scene) returns (threw: bool)
      requires Valid() && ctx != null && s.gpu == ctx.gpu && k.OnAttribute()
      modifies this`console, this`resources, ctx
      ensures Valid()
      ensures Outcome(Snapshot(), threw) == AttribResolved(s, old(Snapshot()), c, k, resolved)
    {
      console := console + resolved.console;
      if resolved.location < 0.0 {
        console := console + ["attribute " + Stringify(Field(c, "index")) + " location not found"];
        return false;
      }
      threw := AttribCommand(c, k, resolved.location, s);
    }

    /**
     * The location of an attribute index: a number is taken as it is; a name is
     * looked up in the bound program's attributes.
     */
    method Locate(index: Json) returns (r: Option<Resolved>)
      requires Valid()
      ensures r == ResolveAttribute(Snapshot(), index)
    {
      if index.JNum? {
        return Some(Resolved(index.n, []));
      }
      if boundProgram.None? {
        return Some(Resolved(-1.0, ["a program must be bound to find the attribute"]));
      }
      var attributes := resources[boundProgram.value].info.attributes;
      if attributes.None? {
        return None;
      }
      var found := FindAttribute(attributes.value, index);
      r := Some(Resolved(if found.Some? then found.value.location as real else -1.0, []));
    }

    /** The six vertex-attribute cases at a location that is not negative. */
    method AttribCommand(c: Json, k: Kind, a: real, s: Scene) returns (threw: bool)
      requires Valid() && ctx != null && s.gpu == ctx.gpu && k.OnAttribute() && a >= 0.0
      modifies this`resources, ctx
      ensures Valid()
      ensures Outcome(Snapshot(), threw) == AttribCalls(s, old(Snapshot()), c, k, a)
    {
      var at := Val(JNum(a));
      threw := false;
      match k
      case VertexAttribIPointer =>
        ctx.Issue(vertexAttribIPointer, [at, Value(c, "size"), Constant(c, "type"), Value(c, "stride"), Value(c, "offset")]);
        threw := RecordPointerCommand(Pointer("vertexAttribIPointer", a, Field(c, "size"), Field(c, "type"), None, Field(c, "stride"),
                                              Field(c, "offset")));
      case VertexAttribPointer =>
        ctx.Issue(vertexAttribPointer, [at, Value(c, "size"), Constant(c, "type"), Value(c, "normalized"), Value(c, "stride"), Value(c, "offset")]);
        threw := RecordPointerCommand(Pointer("vertexAttribPointer", a, Field(c, "size"), Field(c, "type"), Some(Field(c, "normalized")),
                                              Field(c, "stride"), Field(c, "offset")));
      case EnableVertexAttribArray => ctx.Issue(enableVertexAttribArray, [at]);
      case DisableVertexAttribArray => ctx.Issue(disableVertexAttribArray, [at]);
      case VertexAttribFv => threw := AttribValuesCommand(c, k, a, s);
      case VertexAttribI4iv => threw := AttribValuesCommand(c, k, a, s);
    }

    /** `vertexAttrib[1234]fv` and `vertexAttribI4[u]iv`: the values come from the binary buffer the command names. */
    method AttribValuesCommand(c: Json, k: Kind, a: real, s: Scene) returns (threw: bool)
      requires Valid() && ctx != null && s.gpu == ctx.gpu && (k == VertexAttribFv || k == VertexAttribI4iv) && a >= 0.0
      modifies ctx
      ensures Valid()
      ensures Outcome(Snapshot(), threw) == AttribCalls(s, old(Snapshot()), c, k, a)
    {
      var at := Val(JNum(a));
      var values := ViewAt(s.views, Field(Field(c, "buffer_metadata"), "index"));
      threw := false;
      if k == VertexAttribFv {
        var shape := Meta(c, "shape");
        if shape.Failure? || shape.value.JNull? || shape.value.JUndefined? {
          return true;
        }
        var d := Dim(Entry(shape.value, 0));
        if d.Some? {
          if !values.Data? {
            return true;
          }
          ctx.Issue(vertexAttribfv(d.value), [at, values]);
        }
      } else {
        var dtype := Meta(c, "dtype");
        if dtype.Failure? {
          return true;
        }
        if dtype.value == JStr("uint32") || dtype.value == JStr("int32") {
          if !values.Data? {
            return true;
          }
          ctx.Issue(if dtype.value == JStr("uint32") then vertexAttribI4uiv else vertexAttribI4iv, [at, values]);
        }
      }
    }

    /** A pointer call's record in the bound vertex array, under the uid of the buffer bound to ARRAY_BUFFER. */
    method RecordPointerCommand(p: Pointer) returns (threw: bool)
      requires Valid()
      modifies this`resources
      ensures Valid()
      ensures Outcome(Snapshot(), threw) == RecordPointer(old(Snapshot()), p)
    {
      var arrayBuffer := JStr("ARRAY_BUFFER");
      var buffer := if arrayBuffer in boundBuffers then boundBuffers[arrayBuffer] else None;
      if boundVao.None? || buffer.None? {
        return false;
      }
      var v := resources[boundVao.value];
      if v.info.bindings.None? {
        return true;
      }
      var bindings := AddBinding(v.info.bindings.value, resources[buffer.value].uid, p);
      resources := resources[boundVao.value := v.(info := v.info.(bindings := Some(bindings)))];
      threw := false;
    }
  }

  /**
   * The uniform loop of `linkProgram`: each active uniform joins the block its
   * block index names (created, named and sized by the context, when first seen)
   * or, outside every block, the loose uniforms with its location.
   */
  method CollectUniforms(g: Gpu, h: Handle) returns (blocks: seq<Block>, loose: seq<UniformInfo>)
    ensures (blocks, loose) == LinkUniforms(g, h, |g.activeUniforms(h)|)
    ensures Grouped(g, h, |g.activeUniforms(h)|, blocks, loose)
  {
    var active := g.activeUniforms(h);
    blocks, loose := [], [];
    for t := 0 to |active|
      invariant (blocks, loose) == LinkUniforms(g, h, t)
    {
      var u := active[t];
      if u.Some? {
        var b := g.uniformBlockIndex(h, t);
        if b > -1 {
          var member := BlockMember(u.value.name, u.value.typeName, u.value.size, g.uniformOffset(h, t));
          var k := FindIndex(blocks, (x: Block) => x.index == b);
          if k.None? {
            blocks := blocks + [Block(b, g.blockName(h, b), g.blockSize(h, b), [member])];
          } else {
            blocks := blocks[k.value := blocks[k.value].(uniforms := blocks[k.value].uniforms + [member])];
          }
        } else {
          loose := loose + [UniformInfo(u.value.name, u.value.typeName, u.value.size, g.uniformLocation(h, u.value.name))];
        }
      }
    }
    LinkUniformsGrouped(g, h, |active|);
  }

  /** The attribute loop of `linkProgram`: each active attribute, with its location. */
  method CollectAttributes(g: Gpu, h: Handle) returns (attributes: seq<AttributeInfo>)
    ensures attributes == LinkAttributes(g, h, |g.activeAttributes(h)|)
    ensures forall i | 0 <= i < |attributes| :: attributes[i].location == g.attribLocation(h, attributes[i].name)
  {
    var active := g.activeAttributes(h);
    attributes := [];
    for t := 0 to |active|
      invariant attributes == LinkAttributes(g, h, t)
    {
      var a := active[t];
      if a.Some? {
        attributes := attributes + [AttributeInfo(a.value.name, a.value.typeName, a.value.size, g.attribLocation(h, a.value.name))];
      }
    }
  }

  /** The first `forEach` of `handle_custom_messages`: the arrays of the commands with metadata, in order. */
  method DecodeArrays(cs: seq<Json>, bytes: seq<seq<ArrayBuffer.Byte>>) returns (a: Option<seq<ArrayBuffer.View>>)
    ensures a == Decode(cs, bytes)
    ensures a.Some? ==> |a.value| == WithMetadata(cs)
  {
    var views: seq<ArrayBuffer.View> := [];
    for i := 0 to |cs|
      invariant Decode(cs[..i], bytes) == Some(views)
    {
      assert cs[..i + 1][..i] == cs[..i];
      var one := DecodeOne(cs[i], bytes);
      if one.None? {
        DecodeFails(cs, bytes);
        return None;
      }
      views := views + one.value;
    }
    assert cs[..|cs|] == cs;
    a := Some(views);
    DecodeInOrder(cs, bytes);
  }

  /** The second `forEach` of `handle_custom_messages`: each metadata index moved past `e` stored arrays. */
  method RebaseCommands(cs: seq<Json>, e: nat) returns (r: seq<Json>)
    ensures r == Rebase(cs, e)
  {
    r := [];
    for i := 0 to |cs|
      invariant r == Rebase(cs[..i], e)
    {
      r := r + [Rebased(cs[i], e)];
    }
    assert cs[..|cs|] == cs;
  }
}
