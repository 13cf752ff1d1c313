/**
 * The wheelchair controller component: its fields and the methods that update
 * them (WheelChair_Test). Everything the engine supplies (velocities, the ray cast,
 * the camera's forward axis, whether an optional reference is assigned, whether
 * an action was pressed this frame) is a parameter; what the component does to
 * the world is recorded: force and torque requests on the chair's body in
 * `requests`, event invocations in `events`, and the held body's own fields.
 */
module WheelChair {
  import opened Basics
  import opened Physics
  import opened Locomotion
  import opened CameraLook
  import opened Interaction

  /** Notifications the component sends, in order. */
  datatype Event =
    | MoveEvent              // OnmoveEvent
    | ItemThrowOn            // itemthrowon, after a pickup
    | ItemThrowOff           // itemthrowoff, after a drop
    | Interacted(obj: ObjId) // Interactable.Interact() on the hit object
    | LookedAt(obj: ObjId)   // LookAT.LookedAt() on the hit object

  /** Euler angles written to the camera's rotation. */
  datatype Euler = Euler(pitch: real, yaw: real, roll: real)

  /** The bodies a scan may touch: the held one (dropped) and the hit one (picked up). */
  function Touched(held: Body?, hit: Option<Hit>): set<Body>
  {
    (if held != null then {held} else {}) + (if hit.Some? && hit.value.body != null then {hit.value.body} else {})
  }

  /** Notifications of a scan that hits `h` (with no early drop), in the order the scan sends them. */
  function ScanEvents(h: Hit, interactPressed: bool, pickupPressed: bool, isHolding: bool, last: Option<ObjId>): seq<Event>
  {
    (if Interacts(interactPressed, h) then [Interacted(h.obj)] else [])
    + (if GazeFires(last, Some(h)) then [LookedAt(h.obj)] else [])
    + (if PickupAllowed(pickupPressed, isHolding, h) then [ItemThrowOn] else [])
  }

  class WheelChairController {
    const drive: Drive
    const bounds: LookBounds
    const mouseSensitivity: real
    const throwForce: real
    const holdDistance: real

    var leftWheelActive: bool
    var rightWheelActive: bool
    var soundCounter: int
    var xRotation: real
    var yRotation: real
    var promptText: string
    var heldObject: Body?
    var isHolding: bool
    var lastLookAtObject: Option<ObjId>
    var requests: seq<Request>
    var events: seq<Event>

    /** The holding flag and the held reference agree. */
    ghost predicate Valid()
      reads this
    {
      isHolding <==> heldObject != null
    }

    /** The component as it starts: field initialisers, then Start() clearing the prompt. */
    constructor (drive: Drive, bounds: LookBounds, mouseSensitivity: real, throwForce: real, holdDistance: real)
      ensures Valid()
      ensures this.drive == drive && this.bounds == bounds && this.mouseSensitivity == mouseSensitivity
      ensures this.throwForce == throwForce && this.holdDistance == holdDistance
      ensures !leftWheelActive && !rightWheelActive && soundCounter == 0
      ensures xRotation == 0.0 && yRotation == 0.0 && promptText == ""
      ensures heldObject == null && !isHolding && lastLookAtObject == None
      ensures requests == [] && events == []
    {
      this.drive, this.bounds, this.mouseSensitivity := drive, bounds, mouseSensitivity;
      this.throwForce, this.holdDistance := throwForce, holdDistance;
      leftWheelActive, rightWheelActive, soundCounter := false, false, 0;
      xRotation, yRotation, promptText := 0.0, 0.0, "";
      heldObject, isHolding, lastLookAtObject := null, false, None;
      requests, events := [], [];
    }

    // ---------------- wheel callbacks ----------------

    method OnLeftPressed()
      modifies this`leftWheelActive
      ensures leftWheelActive
    {
      leftWheelActive := true;
    }

    method OnLeftReleased()
      modifies this`leftWheelActive
      ensures !leftWheelActive
    {
      leftWheelActive := false;
    }

    method OnRightPressed()
      modifies this`rightWheelActive
      ensures rightWheelActive
    {
      rightWheelActive := true;
    }

    method OnRightReleased()
      modifies this`rightWheelActive
      ensures !rightWheelActive
    {
      rightWheelActive := false;
    }

    // ---------------- pushes ----------------

    /**
     * A scroll event with vertical value `scrollY`, while the chair moves at
     * `speed` and turns at `turnRate` about the vertical axis.
     */
    method OnScroll(scrollY: real, speed: real, turnRate: real)
      modifies this`soundCounter, this`requests, this`events
      ensures var s := Scroll(drive, PushInput(leftWheelActive, rightWheelActive, speed, turnRate, scrollY), old(soundCounter));
              soundCounter == s.counter
              && requests == old(requests) + Issued(s.request)
              && events == old(events) + (if s.fired then [MoveEvent] else [])
    {
      if Abs(scrollY) < ScrollDeadZone {
        return;
      }
      ApplyWheelPush(scrollY, speed, turnRate);
    }

    method ApplyWheelPush(scroll: real, speed: real, turnRate: real)
      modifies this`soundCounter, this`requests, this`events
      ensures var s := Push(drive, PushInput(leftWheelActive, rightWheelActive, speed, turnRate, scroll), old(soundCounter));
              soundCounter == s.counter
              && requests == old(requests) + Issued(s.request)
              && events == old(events) + (if s.fired then [MoveEvent] else [])
    {
      ghost var r := WheelRequest(drive, PushInput(leftWheelActive, rightWheelActive, speed, turnRate, scroll));
      soundCounter := soundCounter + 1;

      if speed > drive.maxSpeed && leftWheelActive && rightWheelActive {
        return;
      }

      if leftWheelActive && rightWheelActive {
        requests := requests + [Force(scroll * drive.wheelForce)];
        assert r.value == Force(scroll * drive.wheelForce);
        TryInvokeMoveEvent();
      } else if leftWheelActive {
        if Abs(turnRate) < drive.maxTurnSpeed {
          requests := requests + [Torque(scroll * drive.turnForce)];
          assert r.value == Torque(scroll * drive.turnForce);
        }
        TryInvokeMoveEvent();
      } else if rightWheelActive {
        if Abs(turnRate) < drive.maxTurnSpeed {
          requests := requests + [Torque(-scroll * drive.turnForce)];
          assert r.value == Torque(-scroll * drive.turnForce);
        }
        TryInvokeMoveEvent();
      }
    }

    method TryInvokeMoveEvent()
      modifies this`soundCounter, this`events
      ensures old(soundCounter) >= drive.threshold ==> soundCounter == 0 && events == old(events) + [MoveEvent]
      ensures old(soundCounter) < drive.threshold ==> soundCounter == old(soundCounter) && events == old(events)
      ensures drive.threshold > 0 ==> soundCounter < drive.threshold
    {
      if soundCounter >= drive.threshold {
        events := events + [MoveEvent];
        soundCounter := 0;
      }
    }

    // ---------------- camera ----------------

    /**
     * A look update with look input (lookX, lookY) over a frame of `deltaTime`;
     * `bodyYaw` is the chair's yaw. Returns the rotation written to the camera,
     * none when the look action or the camera is missing.
     */
    method HandleCameraLook(cameraAction: bool, mainCamera: bool, lookX: real, lookY: real, deltaTime: real, bodyYaw: real)
      returns (cameraRotation: Option<Euler>)
      modifies this`xRotation, this`yRotation
      ensures !(cameraAction && mainCamera) ==>
                xRotation == old(xRotation) && yRotation == old(yRotation) && cameraRotation == None
      ensures cameraAction && mainCamera ==>
                Rotation(xRotation, yRotation)
                == Look(bounds, Rotation(old(xRotation), old(yRotation)), lookX * mouseSensitivity * deltaTime, lookY * mouseSensitivity * deltaTime)
      ensures cameraAction && mainCamera ==> cameraRotation == Some(Euler(xRotation, bodyYaw + yRotation, 0.0))
      ensures cameraAction && mainCamera && Ordered(bounds) ==> InBounds(bounds, Rotation(xRotation, yRotation))
    {
      if !cameraAction || !mainCamera {
        return None;
      }
      var mouseX := lookX * mouseSensitivity * deltaTime;
      var mouseY := lookY * mouseSensitivity * deltaTime;

      xRotation := xRotation - mouseY;
      xRotation := Clamp(xRotation, bounds.minVertical, bounds.maxVertical);
      yRotation := yRotation + mouseX;
      yRotation := Clamp(yRotation, -bounds.maxHorizontal, bounds.maxHorizontal);

      cameraRotation := Some(Euler(xRotation, bodyYaw + yRotation, 0.0));
    }

    // ---------------- detection ----------------

    /**
     * One scan. `camera` is the camera's forward axis (none when there is no
     * camera), `hit` what the ray cast along it reports, `promptSink` whether a
     * prompt text is assigned; the two flags say whether the pickup and interact
     * actions are bound and were pressed this frame.
     */
    method CameraDetection(camera: Option<Vec3>, pickupPressed: bool, interactPressed: bool, promptSink: bool, hit: Option<Hit>)
      requires Valid()
      modifies this`promptText, this`lastLookAtObject, this`heldObject, this`isHolding, this`events
      modifies Touched(heldObject, hit)
      ensures Valid()
      // no camera: nothing happens
      ensures camera.None? ==>
                promptText == old(promptText) && lastLookAtObject == old(lastLookAtObject)
                && heldObject == old(heldObject) && isHolding == old(isHolding) && events == old(events)
                && unchanged(Touched(old(heldObject), hit))
      // pickup pressed while holding: drop and throw, nothing else
      ensures camera.Some? && pickupPressed && old(isHolding) ==>
                var held := old(heldObject);
                held != null && held.useGravity && held.impulses == old(held.impulses) + [Scale(camera.value, throwForce)]
                && held.linearVelocity == old(held.linearVelocity) && held.angularVelocity == old(held.angularVelocity)
                && heldObject == null && !isHolding && events == old(events) + [ItemThrowOff]
                && promptText == old(promptText) && lastLookAtObject == old(lastLookAtObject)
                && unchanged(Touched(null, hit) - {held})
      // otherwise: a scan of the hit
      ensures camera.Some? && !(pickupPressed && old(isHolding)) ==>
                lastLookAtObject == GazeTarget(hit)
                && promptText == (if promptSink then PromptFor(hit) else old(promptText))
      ensures camera.Some? && !(pickupPressed && old(isHolding)) && hit.None? ==>
                heldObject == old(heldObject) && isHolding == old(isHolding) && events == old(events)
                && unchanged(Touched(old(heldObject), hit))
      ensures camera.Some? && !(pickupPressed && old(isHolding)) && hit.Some? ==>
                var h := hit.value;
                events == old(events) + ScanEvents(h, interactPressed, pickupPressed, old(isHolding), old(lastLookAtObject))
                && (PickupAllowed(pickupPressed, old(isHolding), h) ==>
                      heldObject == h.body && isHolding && !h.body.useGravity
                      && h.body.linearVelocity == Zero && h.body.angularVelocity == Zero
                      && h.body.impulses == old(h.body.impulses))
                && (!PickupAllowed(pickupPressed, old(isHolding), h) ==>
                      heldObject == old(heldObject) && isHolding == old(isHolding)
                      && unchanged(Touched(old(heldObject), hit)))
    {
      if camera.None? {
        return;
      }

      if pickupPressed && isHolding && heldObject != null {
        DropHeldObject(camera);
        return;
      }

      if hit.Some? {
        var h := hit.value;

        if promptSink {
          promptText := if h.interactable then InteractPrompt else "";
        }

        if h.interactable && interactPressed {
          events := events + [Interacted(h.obj)];
        }

        if h.lookAt && h.tag == LookAtTag {
          if Some(h.obj) != lastLookAtObject {
            events := events + [LookedAt(h.obj)];
            lastLookAtObject := Some(h.obj);
          }
        } else {
          lastLookAtObject := None;
        }

        if pickupPressed && !isHolding && h.tag == PickUpTag {
          var rbhit := h.body;
          if rbhit != null {
            PickUpObject(rbhit);
          }
        }
      } else {
        lastLookAtObject := None;
        if promptSink {
          promptText := "";
        }
      }
    }

    method PickUpObject(target: Body)
      modifies this`heldObject, this`isHolding, this`events
      modifies target`useGravity, target`linearVelocity, target`angularVelocity
      ensures Valid()
      ensures heldObject == target && isHolding
      ensures !target.useGravity && target.linearVelocity == Zero && target.angularVelocity == Zero
      ensures events == old(events) + [ItemThrowOn]
    {
      heldObject := target;
      isHolding := true;

      heldObject.useGravity := false;
      heldObject.linearVelocity := Zero;
      heldObject.angularVelocity := Zero;

      events := events + [ItemThrowOn];
    }

    /** Drop the held body, throwing it along the camera's forward axis when there is a camera. */
    method DropHeldObject(camera: Option<Vec3>)
      requires Valid()
      modifies this`heldObject, this`isHolding, this`events
      modifies heldObject
      ensures old(heldObject) == null ==> heldObject == null && isHolding == old(isHolding) && events == old(events)
      ensures old(heldObject) != null ==>
                var held := old(heldObject);
                held.useGravity
                && held.impulses == old(held.impulses) + (if camera.Some? then [Scale(camera.value, throwForce)] else [])
                && held.linearVelocity == old(held.linearVelocity) && held.angularVelocity == old(held.angularVelocity)
                && heldObject == null && !isHolding && events == old(events) + [ItemThrowOff]
      ensures Valid()
    {
      if heldObject == null {
        return;
      }

      heldObject.useGravity := true;

      if camera.Some? {
        heldObject.impulses := heldObject.impulses + [Scale(camera.value, throwForce)];
      }

      heldObject := null;
      isHolding := false;

      events := events + [ItemThrowOff];
    }

    /**
     * The fixed-step guard: while an object is held and a hold point is assigned,
     * the held body is moved toward the hold point's position plus holdDistance
     * along its forward axis; that target position is returned.
     */
    method FixedUpdate(holdPoint: Option<Pose>) returns (target: Option<Vec3>)
      requires Valid()
      ensures target.Some? <==> isHolding && holdPoint.Some?
      ensures target.Some? ==> target.value == Add(holdPoint.value.position, Scale(holdPoint.value.forward, holdDistance))
    {
      target := None;
      if isHolding && heldObject != null {
        if holdPoint.Some? {
          target := Some(Add(holdPoint.value.position, Scale(holdPoint.value.forward, holdDistance)));
        }
      }
    }
  }
}

/**
 * A client of the controller: a Pick-Up tagged box is picked up on one frame,
 * then thrown on the next while the ray hits nothing.
 */
module WheelChairScenario {
  import opened Basics
  import opened Physics
  import opened Locomotion
  import opened CameraLook
  import opened Interaction
  import opened WheelChair

  method PickUpThenThrow(forward: Vec3)
  {
    var chair := new WheelChairController(DefaultDrive, DefaultBounds, 10.0, 2.0, 2.0);
    var box := new Body(true, Vec3(1.0, 0.0, 0.0), Zero);
    var hit := Some(Hit(7, false, false, PickUpTag, box));

    chair.CameraDetection(Some(forward), true, false, true, hit);
    assert chair.isHolding && chair.heldObject == box;
    assert !box.useGravity && box.linearVelocity == Zero;

    chair.CameraDetection(Some(forward), true, false, true, None);
    assert !chair.isHolding && chair.heldObject == null;
    assert box.useGravity && box.impulses == [Scale(forward, 2.0)];
    assert chair.events == [ItemThrowOn, ItemThrowOff];
  }
}
