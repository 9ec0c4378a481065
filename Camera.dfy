/**
 * tdogl.Camera (04_camera/source/tdogl/Camera.cs): a first-person camera whose
 * position, yaw, pitch, field of view, near/far planes and aspect ratio are
 * updated in place. The matrices derived from this state are not modelled.
 */
module TdoglCamera {
  import opened Wrappers
  import opened Vectors
  import opened CameraMath

  /** The exceptions the camera's setters throw. */
  datatype CameraError =
    | ArgumentOutOfRange(paramName: string)
    | Argument(message: string)

  class Camera {
    var position: Vector3
    /** Yaw, in degrees. */
    var horizontalAngle: real
    /** Pitch, in degrees. */
    var verticalAngle: real
    /** Stored in radians; read and written in degrees. */
    var fieldOfView: real
    var nearPlane: real
    var farPlane: real
    var viewportAspectRatio: real

    /**
     * What every operation keeps: the yaw in [0, 360), the pitch in [-85, 85],
     * a near plane that is not negative and a positive aspect ratio.
     */
    ghost predicate Valid()
      reads this
    {
      0.0 <= horizontalAngle < FullTurn &&
      -MaxVerticalAngle <= verticalAngle <= MaxVerticalAngle &&
      0.0 <= nearPlane &&
      0.0 < viewportAspectRatio
    }

    /** The defaults: at (0, 0, 1), looking straight ahead with a 50 degree field of view. */
    constructor ()
      ensures Valid()
      ensures position == Vector3(0.0, 0.0, 1.0)
      ensures horizontalAngle == 0.0 && verticalAngle == 0.0
      ensures FieldOfView() == 50.0
      ensures nearPlane == 0.01 && farPlane == 100.0
      ensures viewportAspectRatio == 4.0 / 3.0
    {
      position := Vector3(0.0, 0.0, 1.0);
      horizontalAngle := 0.0;
      verticalAngle := 0.0;
      fieldOfView := ToRadians(50.0);
      nearPlane := 0.01;
      farPlane := 100.0;
      viewportAspectRatio := 4.0 / 3.0;
      DegreesRoundTrip(50.0);
    }

    /** The Position setter: moves the camera and changes nothing else. */
    method SetPosition(p: Vector3)
      requires Valid()
      modifies this
      ensures Valid()
      ensures position == p
      ensures horizontalAngle == old(horizontalAngle) && verticalAngle == old(verticalAngle)
      ensures fieldOfView == old(fieldOfView) && viewportAspectRatio == old(viewportAspectRatio)
      ensures nearPlane == old(nearPlane) && farPlane == old(farPlane)
    {
      position := p;
    }

    /** Moves the camera by `offset` and changes nothing else. */
    method OffsetPosition(offset: Vector3)
      requires Valid()
      modifies this
      ensures Valid()
      ensures position == Add(old(position), offset)
      ensures Subtract(position, old(position)) == offset
      ensures horizontalAngle == old(horizontalAngle) && verticalAngle == old(verticalAngle)
      ensures fieldOfView == old(fieldOfView) && viewportAspectRatio == old(viewportAspectRatio)
      ensures nearPlane == old(nearPlane) && farPlane == old(farPlane)
    {
      position := Add(position, offset);
    }

    /** The FieldOfView getter: the stored radians, in degrees; converting them back gives the stored value. */
    function FieldOfView(): (degrees: real)
      reads this
      ensures ToRadians(degrees) == fieldOfView
    {
      RadiansRoundTrip(fieldOfView);
      ToDegrees(fieldOfView)
    }

    /** The FieldOfView setter: stores `degrees` in radians; the getter reads back exactly `degrees`. */
    method SetFieldOfView(degrees: real)
      requires Valid()
      modifies this
      ensures Valid()
      ensures fieldOfView == ToRadians(degrees)
      ensures FieldOfView() == degrees
      ensures position == old(position)
      ensures horizontalAngle == old(horizontalAngle) && verticalAngle == old(verticalAngle)
      ensures viewportAspectRatio == old(viewportAspectRatio)
      ensures nearPlane == old(nearPlane) && farPlane == old(farPlane)
    {
      fieldOfView := ToRadians(degrees);
      DegreesRoundTrip(degrees);
    }

    /**
     * Sets both planes, as the code checks them: a negative near plane is
     * refused, and so is a near plane below the far plane. So a call succeeds
     * exactly when 0 <= near and far <= near, the reverse of the documented
     * "far must be greater than near". A refused call changes nothing.
     */
    method SetNearAndFarPlanes(near: real, far: real) returns (outcome: Outcome<CameraError>)
      requires Valid()
      modifies this
      ensures Valid()
      ensures near < 0.0 ==> outcome == Fail(ArgumentOutOfRange("nearPlane"))
      ensures 0.0 <= near < far ==> outcome == Fail(Argument("nearPlane must be less that farPlane!"))
      ensures outcome.Pass? <==> 0.0 <= near && far <= near
      ensures outcome.Pass? ==> nearPlane == near && farPlane == far
      ensures outcome.Fail? ==> nearPlane == old(nearPlane) && farPlane == old(farPlane)
      ensures position == old(position) && fieldOfView == old(fieldOfView)
      ensures horizontalAngle == old(horizontalAngle) && verticalAngle == old(verticalAngle)
      ensures viewportAspectRatio == old(viewportAspectRatio)
    {
      if near < 0.0 {
        return Fail(ArgumentOutOfRange("nearPlane"));
      }
      if near < far {
        return Fail(Argument("nearPlane must be less that farPlane!"));
      }
      nearPlane := near;
      farPlane := far;
      outcome := Pass;
    }

    /**
     * Turns the camera up by `upAngle` and right by `rightAngle` degrees: the
     * yaw wraps into [0, 360), a whole number of turns from the sum, and the
     * pitch is clamped, not wrapped, to [-85, 85]. Nothing else changes.
     */
    method OffsetOrientation(upAngle: real, rightAngle: real)
      requires Valid()
      modifies this
      ensures Valid()
      ensures horizontalAngle == WrapYaw(old(horizontalAngle) + rightAngle)
      ensures WholeTurnsApart(horizontalAngle, old(horizontalAngle) + rightAngle)
      ensures verticalAngle == ClampPitch(old(verticalAngle) + upAngle)
      ensures position == old(position) && fieldOfView == old(fieldOfView)
      ensures nearPlane == old(nearPlane) && farPlane == old(farPlane)
      ensures viewportAspectRatio == old(viewportAspectRatio)
    {
      horizontalAngle := horizontalAngle + rightAngle;
      verticalAngle := verticalAngle + upAngle;
      NormalizeAngles();
    }

    /**
     * Faces the camera towards `target`. The direction's length and the
     * arcsine and two-argument arctangent come from the math library (not part
     * of this model) and are parameters here. A target equal to the position is
     * refused and changes nothing; otherwise only the angles change, and they
     * end in range whatever the library returns.
     */
    method LookAt(target: Vector3, length: Vector3 -> real, asin: real -> real, atan2: (real, real) -> real)
      returns (outcome: Outcome<CameraError>)
      requires Valid() && IsLength(length)
      modifies this
      ensures Valid()
      ensures position == old(position) && fieldOfView == old(fieldOfView)
      ensures outcome.Fail? <==> target == position
      ensures outcome.Fail? ==> outcome == Fail(Argument("position is equal to _position!"))
      ensures outcome.Fail? ==> horizontalAngle == old(horizontalAngle) && verticalAngle == old(verticalAngle)
      ensures outcome.Pass? ==>
        var d := Normalized(Subtract(target, position), length);
        verticalAngle == ClampPitch(ToDegrees(asin(-d.y))) &&
        horizontalAngle == WrapYaw(ToDegrees(atan2(-d.x, -d.z)))
      ensures nearPlane == old(nearPlane) && farPlane == old(farPlane)
      ensures viewportAspectRatio == old(viewportAspectRatio)
    {
      if target == position {
        return Fail(Argument("position is equal to _position!"));
      }
      var direction := Normalized(Subtract(target, position), length);
      verticalAngle := ToDegrees(asin(-direction.y));
      horizontalAngle := ToDegrees(atan2(-direction.x, -direction.z));
      NormalizeAngles();
      outcome := Pass;
    }

    /** The ViewportAspectRatio setter: refuses a ratio that is not positive, leaving the old one. */
    method SetViewportAspectRatio(value: real) returns (outcome: Outcome<CameraError>)
      requires Valid()
      modifies this
      ensures Valid()
      ensures outcome.Fail? <==> value <= 0.0
      ensures outcome.Fail? ==> outcome == Fail(ArgumentOutOfRange("ViewportAspectRatio"))
      ensures viewportAspectRatio == if outcome.Pass? then value else old(viewportAspectRatio)
      ensures position == old(position) && fieldOfView == old(fieldOfView)
      ensures horizontalAngle == old(horizontalAngle) && verticalAngle == old(verticalAngle)
      ensures nearPlane == old(nearPlane) && farPlane == old(farPlane)
    {
      if value <= 0.0 {
        return Fail(ArgumentOutOfRange("ViewportAspectRatio"));
      }
      viewportAspectRatio := value;
      outcome := Pass;
    }

    /**
     * Brings the yaw into [0, 360) with C#'s remainder and a fix-up for a
     * negative result, and clamps the pitch to [-85, 85].
     */
    method NormalizeAngles()
      modifies this
      ensures horizontalAngle == WrapYaw(old(horizontalAngle))
      ensures verticalAngle == ClampPitch(old(verticalAngle))
      ensures position == old(position) && fieldOfView == old(fieldOfView)
      ensures nearPlane == old(nearPlane) && farPlane == old(farPlane)
      ensures viewportAspectRatio == old(viewportAspectRatio)
    {
      horizontalAngle := FloatRemainder(horizontalAngle);
      if horizontalAngle < 0.0 {
        horizontalAngle := horizontalAngle + FullTurn;
      }
      if verticalAngle > MaxVerticalAngle {
        verticalAngle := MaxVerticalAngle;
      } else if verticalAngle < -MaxVerticalAngle {
        verticalAngle := -MaxVerticalAngle;
      }
    }
  }

  /**
   * A new camera refuses its own default planes (near 0.01, far 100), because
   * the near plane is below the far plane.
   */
  method DefaultPlanesRefused() returns (outcome: Outcome<CameraError>)
    ensures outcome == Fail(Argument("nearPlane must be less that farPlane!"))
  {
    var camera := new Camera();
    outcome := camera.SetNearAndFarPlanes(0.01, 100.0);
  }
}
