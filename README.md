# tdogl camera, texture formats and shader reference count, in Dafny

This project models the three pieces of the tdogl OpenGL tutorial wrappers (C#)
that have behaviour of their own, and proves properties of them:

- **tdogl.Camera** (`Camera.dfy`, with `CameraMath.dfy` and `Vectors.dfy`): a
  first-person camera, a class whose position, yaw (`horizontalAngle`), pitch
  (`verticalAngle`), field of view, near/far planes and aspect ratio are updated
  in place. After every orientation change the yaw is wrapped into [0, 360)
  with C#'s truncating float remainder plus a fix-up for negative results, and
  the pitch is clamped to [-85, 85]. The object invariant `Valid()` (angles in
  range, near plane not negative, aspect ratio positive) is kept by every
  method. All quantities are exact reals.
- **tdogl.Texture** format lookups (`Texture.dfy`): the GL internal format and
  the GL upload format for a System.Drawing pixel layout, or the
  "Unrecognised Bitmap.Format" error.
- **tdogl.Shader** (`Shader.dfy`): a GL shader handle with a `uint` reference
  count. The count is a 32-bit unsigned value with C#'s unchecked wrap-around.
  The values returned by glCreateShader and the compile-status query are
  parameters. The handles passed to glDeleteShader are recorded in the field
  `deleted`.

Exceptions are modelled as `Outcome`/`Result` values (`Wrappers.dfy`) carrying
the exception's message or parameter name.

Two modelling choices:

- The C# Shader constructor can throw, and a Dafny constructor cannot report a
  failure. It is therefore split in two: the Dafny constructor sets handle and
  count to 0 (lines 34-35), and `Create` runs the rest of the constructor
  (lines 37-63) and returns the outcome.
- `LookAt` needs Vector3.Length, Math.Asin and Math.Atan2, which are library
  code. They are parameters of `LookAt` and may be any functions. The only
  assumption is that the length of a non-zero vector is positive.

Where the code and its documentation disagree, the model follows the code.
`SetNearAndFarPlanes` (04_camera/source/tdogl/Camera.cs:108-116) is documented
as requiring near > 0 and far > near. The code instead refuses near < 0 and
near < far. So it accepts near == 0 and accepts only far <= near. A fresh
camera therefore refuses its own default planes (0.01, 100). The model keeps
this behaviour, and `DefaultPlanesRefused` proves that consequence.

The comment at 01_project_skeleton/source/Shader.cs:74-75 says the Shader is
reference counted like a shared pointer. The copy constructor (lines 76-80)
instead copies the count into a separate field, and nothing calls `Retain`.
So a shader and its copy each delete the same handle when disposed, as
`DisposeOriginalAndCopy` proves.

## Model

| member | source | states |
|---|---|---|
| `CameraMath.Trunc` | 04_camera/source/tdogl/Camera.cs:261 | the rounding of C#'s float `%`: the integer nearest to x on the side of zero, within one of x |
| `CameraMath.FloatRemainder` | 04_camera/source/tdogl/Camera.cs:261-262 | `x % 360` has the sign of x, magnitude below 360, is a whole number of turns from x, and is x itself for x in (-360, 360) |
| `CameraMath.WrapYaw` | 04_camera/source/tdogl/Camera.cs:261-265 | the normalised yaw lies in [0, 360), is a whole number of turns from the input, and an input already in [0, 360) is left unchanged |
| `CameraMath.ClampPitch` | 04_camera/source/tdogl/Camera.cs:267-270 | the normalised pitch lies in [-85, 85], equals the input when that is in range, and is the nearest angle of the range to the input (clamped, not wrapped) |
| `CameraMath.ToRadians` | 04_camera/source/tdogl/Camera.cs:75 | the conversion keeps the sign and maps 180 degrees to pi |
| `CameraMath.ToDegrees` | 04_camera/source/tdogl/Camera.cs:74 | the conversion keeps the sign and maps pi to 180 degrees |
| `TdoglCamera.Camera.FieldOfView` | 04_camera/source/tdogl/Camera.cs:74 | the getter returns degrees that convert back to exactly the stored radians |
| `CameraMath.DegreesRoundTrip` | 04_camera/source/tdogl/Camera.cs:72-76 | degrees to radians and back gives the same degrees |
| `CameraMath.RadiansRoundTrip` | 04_camera/source/tdogl/Camera.cs:72-76 | radians to degrees and back gives the same radians |
| `CameraMath.WrapYawUnique` | 04_camera/source/tdogl/Camera.cs:259-265 | the yaw normalisation has exactly one answer: any angle in [0, 360) a whole number of turns from h is WrapYaw(h) |
| `CameraMath.WrapYawAfterOffset` | 04_camera/source/tdogl/Camera.cs:141-146 | two yaw offsets, normalised after each, end where a single offset by their sum would |
| `CameraMath.NormalizeIdempotent` | 04_camera/source/tdogl/Camera.cs:259-271 | normalising angles a second time changes nothing |
| `Vectors.Add` | 04_camera/source/tdogl/Camera.cs:60 | the sum minus the offset is the original vector |
| `Vectors.Subtract` | 04_camera/source/tdogl/Camera.cs:154-155 | the difference is the zero vector exactly when the two points are equal |
| `Vectors.Normalized` | 04_camera/source/tdogl/Camera.cs:156 | the normalised direction is a positive multiple of the difference: not zero, and each component keeps its sign |
| `TdoglCamera.Camera.constructor` | 04_camera/source/tdogl/Camera.cs:38-47 | a new camera is at (0, 0, 1) with both angles 0, a field of view that reads back as 50 degrees, near 0.01, far 100, aspect 4/3, and satisfies the invariant |
| `TdoglCamera.Camera.SetPosition` | 04_camera/source/tdogl/Camera.cs:55 | the position becomes the given point and nothing else changes |
| `TdoglCamera.Camera.OffsetPosition` | 04_camera/source/tdogl/Camera.cs:58-61 | the position moves by exactly the offset and no other field changes |
| `TdoglCamera.Camera.SetFieldOfView` | 04_camera/source/tdogl/Camera.cs:72-76 | the field of view is stored in radians and the getter then reads back exactly the degrees given; nothing else changes |
| `TdoglCamera.Camera.SetNearAndFarPlanes` | 04_camera/source/tdogl/Camera.cs:110-116 | as written: fails with ArgumentOutOfRange("nearPlane") for near < 0, with ArgumentException for near < far, succeeds exactly when 0 <= near and far <= near and then sets both planes together; a failure changes neither plane |
| `TdoglCamera.Camera.OffsetOrientation` | 04_camera/source/tdogl/Camera.cs:141-146 | the yaw becomes old+right wrapped into [0, 360) (a whole number of turns from old+right), the pitch becomes old+up clamped to [-85, 85]; position, field of view, planes and aspect are untouched |
| `TdoglCamera.Camera.LookAt` | 04_camera/source/tdogl/Camera.cs:152-160 | fails exactly when the target is the current position, then leaving the angles unchanged; otherwise sets pitch and yaw from asin/atan2 of the normalised direction, then normalised into range whatever the library returns; never moves the camera or touches field of view, planes or aspect |
| `TdoglCamera.Camera.SetViewportAspectRatio` | 04_camera/source/tdogl/Camera.cs:167-175 | fails exactly for values <= 0, keeping the old ratio; otherwise stores the value exactly |
| `TdoglCamera.Camera.NormalizeAngles` | 04_camera/source/tdogl/Camera.cs:259-271 | the step-by-step remainder, fix-up and clamp give WrapYaw of the old yaw and ClampPitch of the old pitch, and touch nothing else |
| `TdoglCamera.DefaultPlanesRefused` | 04_camera/source/tdogl/Camera.cs:110-116 | a new camera refuses to be given its own default planes (0.01, 100) |
| `TdoglTexture.TextureFormatForBitmapFormat` | 03_matrices/source/tdogl/Texture.cs:31-40 | succeeds exactly for the three known layouts, with an internal format of the same channel count (Luminance 1, Rgb 3, Rgba 4), and fails with "Unrecognised Bitmap.Format" otherwise |
| `TdoglTexture.PixelFormatForBitmap` | 03_matrices/source/tdogl/Texture.cs:42-51 | succeeds exactly for the three known layouts, with an upload format of the same channel count (Luminance 1, Bgr 3, Bgra 4), and fails with "Unrecognised Bitmap.Format" otherwise |
| `TdoglTexture.FormatTable` | 03_matrices/source/tdogl/Texture.cs:31-51 | 16bpp grayscale maps to Luminance/Luminance, 24bpp RGB to Rgb/Bgr, 32bpp ARGB to Rgba/Bgra |
| `TdoglTexture.LookupsAgree` | 03_matrices/source/tdogl/Texture.cs:31-51 | the two lookups accept the same layouts and give formats with equal channel counts |
| `TdoglShader.WrappingIncrement` | 01_project_skeleton/source/Shader.cs:92 | `+= 1` on a uint adds one, except that the largest value wraps to 0 |
| `TdoglShader.WrappingDecrement` | 01_project_skeleton/source/Shader.cs:97 | `-= 1` on a uint subtracts one, except that 0 wraps to the largest value |
| `TdoglShader.WrappingInverse` | 01_project_skeleton/source/Shader.cs:90-101 | the wrapping increment and decrement undo each other on every value |
| `TdoglShader.Retained` | 01_project_skeleton/source/Shader.cs:90-93 | Retain keeps the handle, and its count is one that a wrapping decrement takes back to the old count |
| `TdoglShader.Released` | 01_project_skeleton/source/Shader.cs:95-101 | Release gives a count that a wrapping increment takes back to the old count, and drops the handle exactly when the old count was 1 |
| `TdoglShader.ReleasedTimes` | 01_project_skeleton/source/Shader.cs:95-101 | after any number of Releases the handle is the original one or 0, never another |
| `TdoglShader.ReleaseUndoesRetain` | 01_project_skeleton/source/Shader.cs:90-101 | Release after Retain restores the state when the count was not 0, and deletes the shader when it was 0 |
| `TdoglShader.OwnersReleaseInTurn` | 01_project_skeleton/source/Shader.cs:95-101 | from a count of c >= 1, each of the first c-1 Releases keeps the handle and lowers the count by one without deleting; the c-th deletes and leaves handle 0, count 0 |
| `TdoglShader.ReleaseAfterDeleteWraps` | 01_project_skeleton/source/Shader.cs:82-101 | Release from count 1 deletes and leaves handle 0, count 0; a further Release wraps the count to 2^32-1 and does not delete |
| `TdoglShader.Shader.constructor` | 01_project_skeleton/source/Shader.cs:34-35 | construction starts with handle 0 and count 0 |
| `TdoglShader.Shader.Create` | 01_project_skeleton/source/Shader.cs:37-63 | a zero handle fails with "glCreateShader failed" and no state; a failed compile deletes the handle, resets it to 0 with count 0 and fails with "Compile failure in shader: " followed by the log; otherwise the handle is kept with a count of exactly 1 |
| `TdoglShader.Shader.Copy` | 01_project_skeleton/source/Shader.cs:76-80 | the copy takes handle and count verbatim, counting no new owner on either side |
| `TdoglShader.Shader.Retain` | 01_project_skeleton/source/Shader.cs:90-93 | the count goes up by one (wrapping) and the handle is unchanged |
| `TdoglShader.Shader.Release` | 01_project_skeleton/source/Shader.cs:95-101 | the count goes down by one (wrapping); from 1 the handle is passed to glDeleteShader and reset to 0, otherwise it is kept |
| `TdoglShader.Shader.Dispose` | 01_project_skeleton/source/Shader.cs:82-85 | disposing is one Release |
| `TdoglShader.DisposeTwice` | 01_project_skeleton/source/Shader.cs:82-101 | a compiled shader disposed twice is deleted once and ends with handle 0 and count 2^32-1 |
| `TdoglShader.DisposeOriginalAndCopy` | 01_project_skeleton/source/Shader.cs:76-101 | a shader and its copy, both disposed, each pass the same handle to glDeleteShader |

## Left out

- The camera's matrix and direction accessors (`Orientation`, `Forward`, `Right`, `Up`, `View`, `Projection`, `CombinedMatrix`, Camera.cs:123-249): they are float matrix and trigonometry calls into the Pencil.Gaming MathUtils library, which is not part of this model.
- The plain getters (`Position`, `NearPlane`, `FarPlane`, `ViewportAspectRatio`, `Shader.GlObject`): each reads one field, which the model exposes directly.
- Float rounding and special values: every quantity is an exact real. In single precision, the `+= 360` fix-up (Camera.cs:264-265) can round a tiny negative yaw up to exactly 360.0, outside [0, 360). NaN and infinities are outside the model too: a NaN passes both checks of `SetNearAndFarPlanes` (Camera.cs:112-113) and the `value <= 0` check of the aspect-ratio setter (Camera.cs:172) and is stored, and an infinite offset makes the remainder at Camera.cs:261 NaN, which the fix-up leaves outside [0, 360). The invariant `Valid()` holds over the reals only.
- pi is a positive constant whose value is left open, and the degree/radian conversions are exact. MathHelper's own float constant and rounding are not part of this model.
- TdoglCamera.Camera.LookAt: Vector3.Length, Math.Asin and Math.Atan2 are parameters, so the contract relates the new angles to whatever they return. It does not claim that the camera then faces the target.
- The Texture constructor, `Dispose` and the `GLObject` getter (Texture.cs:53-86): they are sequences of GL calls and the handle they produce, so the model has no Texture state. `OriginalWidth`/`OriginalHeight` are never assigned in the source.
- The System.Drawing pixel layouts other than the three known ones are one value, `OtherFormat`, because both lookups treat them alike.
- `Shader.ShaderFromFile` (Shader.cs:19-24): file I/O.
- The GL calls inside the Shader constructor: the handle from `CreateShader` (Shader.cs:38), the status from the compile-status query `GetShader` (Shader.cs:50) and the log from `GetShaderInfoLog` (Shader.cs:55) are the parameters of `Create`; `ShaderSource` and `CompileShader` (Shader.cs:43-46) return nothing and are left out.
- Program.cs, Bitmap.cs and the Tutorial*.cs files: GL program linking, System.Drawing wrapping, window creation, input polling and the frame loop.
