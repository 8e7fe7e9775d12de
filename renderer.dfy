/**
 * The static Renderer of Renderer.cpp. Its only state is the process-wide
 * scene record holding the view-projection matrix of the current scene;
 * everything else it does is a call into the GPU back end, which the model
 * records, in order, as a trace of commands.
 */
module Rendering {
  import opened Numeric
  import opened Cameras

  /** The identity of a shared Shader. */
  type ShaderId = nat

  /** The identity of a shared VertexArray. */
  type VertexArrayId = nat

  /** One call from the renderer into the back end. */
  datatype Command =
    | RenderCommandInit                                     // RenderCommand::Init
    | Renderer2DInit                                        // Renderer2D::Init
    | SetViewport(x: u32, y: u32, width: u32, height: u32)  // RenderCommand::SetViewport
    | BindShader(shader: ShaderId)                          // Shader::Bind
    | UploadUniformMat4(shader: ShaderId, name: string, value: Mat)  // OpenGLShader::UploadUniformMat4
    | BindVertexArray(vertexArray: VertexArrayId)           // VertexArray::Bind
    | DrawIndexed(vertexArray: VertexArrayId)               // RenderCommand::DrawIndexed

  /** The scene matrix together with everything issued to the back end so far. */
  datatype RendererState = RendererState(sceneViewProjection: Mat, trace: seq<Command>)

  /** A call of one of the Renderer's static functions; BeginScene carries the camera's view-projection matrix. */
  datatype Call =
    | Init
    | OnWindowResize(width: u32, height: u32)
    | BeginScene(cameraViewProjection: Mat)
    | EndScene
    | Submit(shader: ShaderId, vertexArray: VertexArrayId, transform: Mat)

  /**
   * What one Submit issues, given the scene matrix at the time of the call:
   * a complete submission ending in the draw of the vertex array, whose
   * "u_ViewProjection" upload is the scene matrix.
   */
  function SubmitCommands(shader: ShaderId, vertexArray: VertexArrayId, viewProjection: Mat, transform: Mat): (r: seq<Command>)
    ensures |r| > 0 && r[|r| - 1] == DrawIndexed(vertexArray)
    ensures DrawsPrepared(r)
    ensures SceneUploadsFrom(r, 0, viewProjection)
  {
    [ BindShader(shader),
      UploadUniformMat4(shader, "u_ViewProjection", viewProjection),
      UploadUniformMat4(shader, "u_Transform", transform),
      BindVertexArray(vertexArray),
      DrawIndexed(vertexArray) ]
  }

  /**
   * The effect of one call. No call checks whether a scene is active: the
   * trace only ever grows, and only BeginScene changes the scene matrix.
   */
  function Step(s: RendererState, c: Call): (t: RendererState)
    ensures |s.trace| <= |t.trace| && t.trace[..|s.trace|] == s.trace
    ensures t.sceneViewProjection != s.sceneViewProjection ==> c.BeginScene?
  {
    match c
    case Init => s.(trace := s.trace + [RenderCommandInit, Renderer2DInit])
    case OnWindowResize(w, h) => s.(trace := s.trace + [SetViewport(0, 0, w, h)])
    case BeginScene(vp) => s.(sceneViewProjection := vp)
    case EndScene => s
    case Submit(sh, va, m) => s.(trace := s.trace + SubmitCommands(sh, va, s.sceneViewProjection, m))
  }

  /** The effect of a sequence of calls, first to last. */
  function Run(s: RendererState, calls: seq<Call>): (t: RendererState)
    decreases |calls|
  {
    if calls == [] then s else Run(Step(s, calls[0]), calls[1..])
  }

  class Renderer {
    var sceneViewProjection: Mat
    var trace: seq<Command>

    function State(): (s: RendererState)
      reads this
    {
      RendererState(sceneViewProjection, trace)
    }

    /** The scene record as first created; its matrix is whatever SceneData starts with. */
    constructor (initialViewProjection: Mat)
      ensures State() == RendererState(initialViewProjection, [])
    {
      sceneViewProjection := initialViewProjection;
      trace := [];
    }

    /** Initialises the render back end, then the 2D renderer. */
    method Init()
      modifies this
      ensures trace == old(trace) + [RenderCommandInit, Renderer2DInit]
      ensures sceneViewProjection == old(sceneViewProjection)
      ensures State() == Step(old(State()), Call.Init)
    {
      trace := trace + [RenderCommandInit];
      trace := trace + [Renderer2DInit];
    }

    /** Sets the viewport to the whole resized window. */
    method OnWindowResize(width: u32, height: u32)
      modifies this
      ensures trace == old(trace) + [SetViewport(0, 0, width, height)]
      ensures sceneViewProjection == old(sceneViewProjection)
      ensures State() == Step(old(State()), Call.OnWindowResize(width, height))
    {
      trace := trace + [SetViewport(0, 0, width, height)];
    }

    /** Records the camera's view-projection matrix as the scene's; issues nothing. */
    method BeginScene(camera: Camera)
      modifies this
      ensures sceneViewProjection == camera.GetViewProjectionMatrix()
      ensures camera.Valid() ==>
        sceneViewProjection == Product(camera.GetProjectionMatrix(), ViewOf(camera.GetPosition(), camera.GetRotation()))
      ensures trace == old(trace)
      ensures State() == Step(old(State()), Call.BeginScene(camera.GetViewProjectionMatrix()))
    {
      sceneViewProjection := camera.GetViewProjectionMatrix();
    }

    /** Ends the scene; its body is empty. */
    method EndScene()
      ensures State() == Step(old(State()), Call.EndScene)
    {
    }

    /**
     * Binds the shader, uploads the scene matrix and the object's transform,
     * binds the vertex array and draws it.
     */
    method Submit(shader: ShaderId, vertexArray: VertexArrayId, transform: Mat)
      modifies this
      ensures trace == old(trace) + SubmitCommands(shader, vertexArray, sceneViewProjection, transform)
      ensures sceneViewProjection == old(sceneViewProjection)
      ensures State() == Step(old(State()), Call.Submit(shader, vertexArray, transform))
    {
      trace := trace + [BindShader(shader)];
      trace := trace + [UploadUniformMat4(shader, "u_ViewProjection", sceneViewProjection)];
      trace := trace + [UploadUniformMat4(shader, "u_Transform", transform)];
      trace := trace + [BindVertexArray(vertexArray)];
      trace := trace + [DrawIndexed(vertexArray)];
    }
  }

  // ---------------------------------------------------------------------
  // What a submission looks like in the trace

  /** The number of draw calls in a trace. */
  function CountDraws(t: seq<Command>): (n: nat) {
    if t == [] then 0 else (if t[0].DrawIndexed? then 1 else 0) + CountDraws(t[1..])
  }

  /** The number of Submit calls in a call sequence. */
  function CountSubmits(calls: seq<Call>): (n: nat) {
    if calls == [] then 0 else (if calls[0].Submit? then 1 else 0) + CountSubmits(calls[1..])
  }

  /**
   * Every draw in the trace is the last command of a complete submission:
   * the shader bound, the scene matrix and then the transform uploaded to that
   * shader, and the drawn vertex array bound just before the draw.
   */
  predicate DrawsPrepared(t: seq<Command>) {
    forall i :: 0 <= i < |t| && t[i].DrawIndexed? ==> PreparedAt(t, i)
  }

  predicate PreparedAt(t: seq<Command>, i: int)
    requires 0 <= i < |t| && t[i].DrawIndexed?
  {
    4 <= i
    && t[i - 1] == BindVertexArray(t[i].vertexArray)
    && t[i - 2].UploadUniformMat4? && t[i - 2].name == "u_Transform"
    && t[i - 3].UploadUniformMat4? && t[i - 3].name == "u_ViewProjection"
    && t[i - 3].shader == t[i - 2].shader
    && t[i - 4] == BindShader(t[i - 2].shader)
  }

  /** Every upload of "u_ViewProjection" at position `from` or later carries `vp`. */
  predicate SceneUploadsFrom(t: seq<Command>, from: nat, vp: Mat) {
    forall i :: from <= i < |t| && t[i].UploadUniformMat4? && t[i].name == "u_ViewProjection" ==> t[i].value == vp
  }

  /**
   * One Submit draws exactly once, and its "u_Transform" upload, which
   * directly follows the scene upload, carries the submitted transform.
   */
  lemma SubmitOrder(shader: ShaderId, vertexArray: VertexArrayId, viewProjection: Mat, transform: Mat)
    ensures var t := SubmitCommands(shader, vertexArray, viewProjection, transform);
      && CountDraws(t) == 1
      && t[2] == UploadUniformMat4(shader, "u_Transform", transform)
  {
    var t := SubmitCommands(shader, vertexArray, viewProjection, transform);
    assert CountDraws(t[5..]) == 0 by { assert t[5..] == []; }
    assert CountDraws(t[4..]) == 1 by { assert t[4..][1..] == t[5..]; }
    assert CountDraws(t[3..]) == 1 by { assert t[3..][1..] == t[4..]; }
    assert CountDraws(t[2..]) == 1 by { assert t[2..][1..] == t[3..]; }
    assert CountDraws(t[1..]) == 1 by { assert t[1..][1..] == t[2..]; }
  }

  lemma {:induction false} CountDrawsAppend(a: seq<Command>, b: seq<Command>)
    ensures CountDraws(a + b) == CountDraws(a) + CountDraws(b)
    decreases |a|
  {
    if a != [] {
      assert (a + b)[1..] == a[1..] + b;
      CountDrawsAppend(a[1..], b);
    } else {
      assert a + b == b;
    }
  }

  /** Appending a complete submission keeps every draw of the trace prepared. */
  lemma AppendSubmitKeepsDrawsPrepared(t: seq<Command>, shader: ShaderId, vertexArray: VertexArrayId, vp: Mat, m: Mat)
    requires DrawsPrepared(t)
    ensures DrawsPrepared(t + SubmitCommands(shader, vertexArray, vp, m))
  {
  }

  /** Each Submit adds exactly one draw call and no other call adds any. */
  lemma {:induction false} RunDrawCount(s: RendererState, calls: seq<Call>)
    ensures CountDraws(Run(s, calls).trace) == CountDraws(s.trace) + CountSubmits(calls)
    decreases |calls|
  {
    if calls != [] {
      var s' := Step(s, calls[0]);
      match calls[0] {
        case Init =>
          CountDrawsAppend(s.trace, [RenderCommandInit, Renderer2DInit]);
        case OnWindowResize(w, h) =>
          CountDrawsAppend(s.trace, [SetViewport(0, 0, w, h)]);
        case BeginScene(_) =>
        case EndScene =>
        case Submit(sh, va, m) =>
          SubmitOrder(sh, va, s.sceneViewProjection, m);
          CountDrawsAppend(s.trace, SubmitCommands(sh, va, s.sceneViewProjection, m));
      }
      RunDrawCount(s', calls[1..]);
    }
  }

  /** Whatever the calls, every draw in the trace is preceded by its complete submission. */
  lemma {:induction false} RunKeepsDrawsPrepared(s: RendererState, calls: seq<Call>)
    requires DrawsPrepared(s.trace)
    ensures DrawsPrepared(Run(s, calls).trace)
    decreases |calls|
  {
    if calls != [] {
      var s' := Step(s, calls[0]);
      match calls[0] {
        case Init =>
          assert forall i :: 0 <= i < |s.trace| ==> s'.trace[i] == s.trace[i];
        case OnWindowResize(w, h) =>
          assert forall i :: 0 <= i < |s.trace| ==> s'.trace[i] == s.trace[i];
        case BeginScene(_) =>
        case EndScene =>
        case Submit(sh, va, m) =>
          AppendSubmitKeepsDrawsPrepared(s.trace, sh, va, s.sceneViewProjection, m);
      }
      RunKeepsDrawsPrepared(s', calls[1..]);
    }
  }

  /**
   * Without a BeginScene, calls leave the scene matrix alone, and every
   * "u_ViewProjection" they upload is that matrix.
   */
  lemma {:induction false} RunWithinScene(s: RendererState, calls: seq<Call>)
    requires forall i :: 0 <= i < |calls| ==> !calls[i].BeginScene?
    ensures Run(s, calls).sceneViewProjection == s.sceneViewProjection
    ensures SceneUploadsFrom(Run(s, calls).trace, |s.trace|, s.sceneViewProjection)
    decreases |calls|
  {
    if calls != [] {
      var s' := Step(s, calls[0]);
      assert !calls[0].BeginScene?;
      RunWithinScene(s', calls[1..]);
      var t := Run(s, calls).trace;
      forall i | |s.trace| <= i < |t| && t[i].UploadUniformMat4? && t[i].name == "u_ViewProjection"
        ensures t[i].value == s.sceneViewProjection
      {
        if i < |s'.trace| {
          assert Run(s', calls[1..]).trace[..|s'.trace|] == s'.trace by {
            RunExtends(s', calls[1..]);
          }
          assert t[i] == s'.trace[i];
        }
      }
    }
  }

  /** A run only appends to the trace. */
  lemma {:induction false} RunExtends(s: RendererState, calls: seq<Call>)
    ensures |s.trace| <= |Run(s, calls).trace|
    ensures Run(s, calls).trace[..|s.trace|] == s.trace
    decreases |calls|
  {
    if calls != [] {
      var s' := Step(s, calls[0]);
      RunExtends(s', calls[1..]);
      assert Run(s, calls).trace[..|s.trace|] == Run(s', calls[1..]).trace[..|s'.trace|][..|s.trace|];
    }
  }

  /**
   * A frame BeginScene(vp), submissions and other calls, EndScene: every
   * "u_ViewProjection" uploaded in the frame is the camera's vp, and the frame
   * draws once per Submit.
   */
  lemma Frame(s: RendererState, vp: Mat, body: seq<Call>)
    requires forall i :: 0 <= i < |body| ==> !body[i].BeginScene?
    ensures var t := Run(s, [BeginScene(vp)] + body + [EndScene]);
      && t.sceneViewProjection == vp
      && SceneUploadsFrom(t.trace, |s.trace|, vp)
      && CountDraws(t.trace) == CountDraws(s.trace) + CountSubmits(body)
  {
    var s1 := Step(s, BeginScene(vp));
    var calls := [BeginScene(vp)] + body + [EndScene];
    assert calls[0] == BeginScene(vp);
    assert calls[1..] == body + [EndScene];
    var rest := body + [EndScene];
    assert forall i :: 0 <= i < |rest| ==> !rest[i].BeginScene?;
    RunWithinScene(s1, rest);
    RunDrawCount(s1, rest);
    CountSubmitsAppend(body, [EndScene]);
    assert Run(s, calls) == Run(s1, rest);
  }

  lemma {:induction false} CountSubmitsAppend(a: seq<Call>, b: seq<Call>)
    ensures CountSubmits(a + b) == CountSubmits(a) + CountSubmits(b)
    decreases |a|
  {
    if a != [] {
      assert (a + b)[1..] == a[1..] + b;
      CountSubmitsAppend(a[1..], b);
    } else {
      assert a + b == b;
    }
  }

  /**
   * No call guards the scene: a Submit after EndScene is carried out like any
   * other, uploading the matrix of the scene that already ended.
   */
  lemma SubmitAfterEndScene(s: RendererState, shader: ShaderId, vertexArray: VertexArrayId, transform: Mat)
    ensures Run(s, [EndScene, Submit(shader, vertexArray, transform)]).trace
         == s.trace + SubmitCommands(shader, vertexArray, s.sceneViewProjection, transform)
  {
    var calls := [EndScene, Submit(shader, vertexArray, transform)];
    assert calls[1..] == [Submit(shader, vertexArray, transform)];
    assert calls[1..][1..] == [];
    assert Step(s, EndScene) == s;
    assert Run(s, calls) == Run(s, calls[1..]);
    assert Run(s, calls[1..]) == Step(s, Submit(shader, vertexArray, transform));
  }
}
