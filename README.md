# Mashenka engine core in Dafny

A model of four small pieces of the Mashenka game engine, with proofs about them:

- **Events.** The key events (`KeyPressedEvent`, `KeyReleasedEvent`, `KeyTypedEvent`) and the
  application events (`WindowResizeEvent`, `WindowCloseEvent`, `AppTickEvent`, `AppUpdateEvent`,
  `AppRenderEvent`) form one closed datatype `Events.Event`. Each variant has a fixed type tag, a
  fixed set of category flags and the payload its constructor stores. Where the class overrides
  `ToString`, the model gives its debug string. The integers in those strings are written out the
  way a `std::stringstream` writes them (module `Decimal`), so the exact formats can be stated.
  They can also be shown to identify the event.
- **Camera.** The camera base class is a Dafny class with position, rotation and the three
  matrices. Its invariant `Valid()` says the view and view-projection matrices are derived from
  the current position, rotation and projection. Both setters restore it at once, so a getter
  never returns a stale matrix.
- **Renderer.** The static renderer is a class holding the scene's view-projection matrix and the
  ordered trace of calls it makes into the GPU back end. The pure reference semantics
  `Rendering.Step` and `Rendering.Run` give the effect of one call and of a sequence of calls. Each
  method is proved against `Step`. The lemmas cover what a sequence of calls issues: one draw per
  `Submit`, each draw preceded by its complete submission, and scene uploads that carry the matrix
  of the latest `BeginScene`.
- **WindowProps.** The window description record with its defaults.

Matrices are symbolic terms (`Cameras.Mat`). `ViewOf(position, rotation)` stands for the view
matrix, `Product(a, b)` for the glm product `a * b`, and `Supplied(id)` for any matrix computed
outside the model (a projection, an object transform). Float vectors and angles are modelled as
reals. No property depends on matrix arithmetic.

The code has no Begin/End guard in the renderer. `BeginScene` may be called twice. `Submit` may be
called before any `BeginScene` or after `EndScene`, and it then uploads whatever matrix the scene
record holds. The model follows the code and accepts these sequences: see
`Rendering.SubmitAfterEndScene`. A design that rejects such calls would need a flag that the code
does not have.

## Model

| member | source | states |
|---|---|---|
| `Decimal.NatToDecimal` | Mashenka/src/Mashenka/Events/KeyEvent.h:56 | the numeral written for a key code is non-empty, made only of digits, and has no leading zero: a numeral starting with '0' is exactly "0", written for the value 0 |
| `Decimal.IntToDecimal` | Mashenka/src/Mashenka/Events/KeyEvent.h:37 | the numeral written for the signed repeat count starts with '-' exactly when the count is negative; after the sign come only digits, with no leading zero; a count of 0 is written exactly "0" |
| `Decimal.NatToDecimalRoundTrip` | Mashenka/src/Mashenka/Events/ApplicationEvent.h:20 | reading the written digits back gives the original width, height or key code |
| `Decimal.IntToDecimalRoundTrip` | Mashenka/src/Mashenka/Events/KeyEvent.h:37 | reading the written signed numeral back gives the original repeat count |
| `Decimal.IntToDecimalInjective` | Mashenka/src/Mashenka/Events/KeyEvent.h:37 | two different integers never print as the same numeral |
| `Events.Type` | Mashenka/src/Mashenka/Events/ApplicationEvent.h:24-63 | (with KeyEvent.h:41, 60 and 78) the tag reported through EVENT_CLASS_TYPE is one of KeyPressed, KeyReleased, KeyTyped exactly when the event is a key event |
| `Events.Category` | Mashenka/src/Mashenka/Events/KeyEvent.h:12-78 | (with ApplicationEvent.h:25, 37, 46, 55 and 64) every event has the Application flag, has the Input flag exactly when it is a key event, and has no other flag |
| `Events.KeyEventCategory` | Mashenka/src/Mashenka/Events/KeyEvent.h:12-24 | every key event variant has exactly the flags Application and Input, whatever its key code or repeat count |
| `Events.ApplicationEventCategory` | Mashenka/src/Mashenka/Events/ApplicationEvent.h:25-64 | each of the five application events has exactly the Application flag and not the Input flag |
| `Events.CategoryDependsOnlyOnType` | Mashenka/src/Mashenka/Events/ApplicationEvent.h:24-25 | two events with the same type tag have the same category flags, whatever their payload |
| `Events.TypeTagsDistinct` | Mashenka/src/Mashenka/Events/KeyEvent.h:41-78 | two events have the same type tag exactly when they are of the same class, so the eight tags are pairwise distinct |
| `Events.ConstructorPayload` | Mashenka/src/Mashenka/Events/KeyEvent.h:15-32 | the key code, repeat count, width and height read back are the ones passed to the constructors |
| `Events.PayloadDeterminesEvent` | Mashenka/src/Mashenka/Events/ApplicationEvent.h:31-65 | two events of one class with equal payload are equal: released and typed events hold only the key code, and close, tick, update and render events hold nothing |
| `Events.ToString` | Mashenka/src/Mashenka/Events/KeyEvent.h:34-75 | (with ApplicationEvent.h:17-22) a debug string is defined exactly for the four overriding classes, and it starts with the class name |
| `Events.ToStringFormats` | Mashenka/src/Mashenka/Events/KeyEvent.h:53-75 | the exact formats: "KeyPressedEvent" + key + " (" + repeats + " repeats)" with no separator after the name, "KeyReleasedEvent: " + key, "KeyTypedEvent: " + key, "WindowResizeEvent: " + width + "," + height |
| `Events.ToStringInjective` | Mashenka/src/Mashenka/Events/KeyEvent.h:34-75 | (with ApplicationEvent.h:17-22) two events that print the same debug string are the same event, despite the missing separator in the KeyPressedEvent format |
| `WindowProperties.DefaultWindowProps` | Mashenka/src/Mashenka/Window.h:17-19 | the default title is "Mashenka Engine", the default width 1280 and the default height 720 |
| `WindowProperties.ExplicitWindowProps` | Mashenka/src/Mashenka/Window.h:20 | an explicit title, width and height are stored unchanged, and an omitted trailing argument takes its default |
| `Cameras.Camera.constructor` | Mashenka/src/Mashenka/Renderer/Camera.h:46-47 | a new camera is at position (0,0,0) with rotation 0, and its derived matrices are consistent |
| `Cameras.Camera.GetPosition` | Mashenka/src/Mashenka/Renderer/Camera.h:24 | a pure read of the stored position, which on a consistent camera is the position the view matrix is derived from |
| `Cameras.Camera.GetRotation` | Mashenka/src/Mashenka/Renderer/Camera.h:26 | a pure read of the stored rotation, which on a consistent camera is the rotation the view matrix is derived from |
| `Cameras.Camera.GetProjectionMatrix` | Mashenka/src/Mashenka/Renderer/Camera.h:32 | a pure read of the stored projection, which on a consistent camera is the left factor of the view-projection |
| `Cameras.Camera.GetViewMatrix` | Mashenka/src/Mashenka/Renderer/Camera.h:30 | on a consistent camera, the stored view matrix is the one for the current position and rotation |
| `Cameras.Camera.GetViewProjectionMatrix` | Mashenka/src/Mashenka/Renderer/Camera.h:35 | on a consistent camera, the stored view-projection is the projection times the view for the current position and rotation |
| `Cameras.Camera.SetPosition` | Mashenka/src/Mashenka/Renderer/Camera.h:25 | the position becomes p, rotation and projection are unchanged, and the derived matrices are recomputed from them |
| `Cameras.Camera.SetRotation` | Mashenka/src/Mashenka/Renderer/Camera.h:27 | the rotation becomes r, position and projection are unchanged, and the derived matrices are recomputed from them |
| `Cameras.Camera.RecalculateViewMatrix` | Mashenka/src/Mashenka/Renderer/Camera.h:38 | makes view and view-projection consistent with position, rotation and projection, and changes none of those three |
| `Rendering.Step` | Mashenka/src/Mashenka/Renderer/Renderer.cpp:14-52 | no call removes or rewrites a command already issued, and only BeginScene changes the scene matrix |
| `Rendering.Renderer.constructor` | Mashenka/src/Mashenka/Renderer/Renderer.cpp:11 | the scene record starts with its initial matrix and nothing has been issued |
| `Rendering.Renderer.Init` | Mashenka/src/Mashenka/Renderer/Renderer.cpp:14-19 | appends RenderCommand::Init and then Renderer2D::Init to the trace and leaves the scene matrix alone |
| `Rendering.Renderer.OnWindowResize` | Mashenka/src/Mashenka/Renderer/Renderer.cpp:21-25 | appends SetViewport(0, 0, width, height) and leaves the scene matrix alone |
| `Rendering.Renderer.BeginScene` | Mashenka/src/Mashenka/Renderer/Renderer.cpp:27-31 | the scene matrix becomes the camera's view-projection, that is the camera's projection times the view for its current position and rotation, and nothing is issued |
| `Rendering.Renderer.EndScene` | Mashenka/src/Mashenka/Renderer/Renderer.cpp:33-36 | the scene matrix and the trace are left as they were |
| `Rendering.Renderer.Submit` | Mashenka/src/Mashenka/Renderer/Renderer.cpp:40-52 | appends bind shader, upload of the scene matrix as "u_ViewProjection", upload of the transform as "u_Transform", bind vertex array and draw, and keeps the scene matrix |
| `Rendering.SubmitCommands` | Mashenka/src/Mashenka/Renderer/Renderer.cpp:42-51 | one submission ends in the draw of the submitted vertex array; that draw comes right after the vertex-array bind, the "u_Transform" upload, the "u_ViewProjection" upload and the bind of the same shader, in that order; and its view-projection upload carries the scene matrix |
| `Rendering.SubmitOrder` | Mashenka/src/Mashenka/Renderer/Renderer.cpp:47-51 | one submission issues exactly one draw, and its "u_Transform" upload carries the submitted transform |
| `Rendering.RunDrawCount` | Mashenka/src/Mashenka/Renderer/Renderer.cpp:51 | over any sequence of calls, the number of draws issued equals the number of Submit calls |
| `Rendering.RunKeepsDrawsPrepared` | Mashenka/src/Mashenka/Renderer/Renderer.cpp:42-51 | over any sequence of calls, every draw in the trace comes right after its shader bind, its two uploads to that shader and its vertex array bind |
| `Rendering.RunWithinScene` | Mashenka/src/Mashenka/Renderer/Renderer.cpp:46 | calls without a BeginScene keep the scene matrix, and every "u_ViewProjection" they upload is that matrix |
| `Rendering.Frame` | Mashenka/src/Mashenka/Renderer/Renderer.cpp:27-52 | in a frame BeginScene(vp), calls, EndScene, every view-projection upload carries vp and one draw is issued per Submit |
| `Rendering.SubmitAfterEndScene` | Mashenka/src/Mashenka/Renderer/Renderer.cpp:33-52 | a Submit after EndScene is not rejected: it issues a full submission with the matrix of the scene that ended |

## Left out

- Event.h is not part of this model. That leaves out the handled flag, the event dispatcher,
  `GetName`, `IsInCategory`, the numeric values of the tags and flags, and the base-class
  `ToString`. Category flags are distinct abstract values.
- Events.ToString: returns None for `WindowCloseEvent`, `AppTickEvent`, `AppUpdateEvent` and
  `AppRenderEvent`. These classes inherit the base-class `ToString` of Event.h, which is not part of this model.
- The `Key`/`KeyCode` type (Input.h) is not part of this model. A key code is a non-negative
  integer, and the stream is assumed to print it in decimal.
- Mouse events are not among the modelled headers.
- Matrix and vector arithmetic (glm), and the body of `RecalculateViewMatrix` (Camera.cpp), are
  not part of this model. The view matrix is the symbolic term `ViewOf(position, rotation)`, and
  the view-projection is `Product(projection, view)`. Term equality is syntactic, which is finer
  than matrix equality; no lemma relies on two terms being different.
- Float precision: positions and rotations are reals.
- Cameras.Camera.constructor: takes the projection as a parameter. `Camera() = default` leaves
  the matrices to the derived OrthographicCamera, whose constructor body is not part of this model.
  The model's constructor derives the view from the initial position and rotation.
- `SetProjection` and `OnEvent` of the camera are pure virtual. The OrthographicCamera bodies
  that implement them are not part of this model.
- Renderer2D internals, the GPU side effects and the `SceneData` layout (Renderer.h) are not part
  of this model. Back-end calls appear only as trace entries, `Renderer2D::Init` as a single entry.
  The initial scene matrix is a parameter of the constructor.
- The `dynamic_pointer_cast` to `OpenGLShader` in `Submit` is modelled as always succeeding; a
  shader of another back end, which would yield a null pointer, is not modelled.
- The virtual `Window` interface (`OnUpdate`, `GetWidth`, `GetHeight`, `SetEventCallback`,
  `SetVSync`, `IsVSync`, `Create`) has no bodies in the source and is platform plumbing.
- LayerStack, Application and the Sandbox client are not part of this model.
