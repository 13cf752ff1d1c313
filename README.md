# Wheelchair controller — a Dafny model

This project models the decision and state logic of `WheelChair_Test`, the
first-person wheelchair controller of the Remain-Seated project
(`Assets/Assets/Scripts/WheelChair_Test.cs`). The model covers four parts:

- **Wheel pushes.** The two wheel flags are set by the press and release
  callbacks. A scroll push becomes a forward force, a signed torque or nothing,
  depending on the speed and turn caps. `soundCounter` paces `OnmoveEvent`: every
  accepted push increments it, and `OnmoveEvent` fires (and the counter restarts
  at 0) only on a push that reaches `TryInvokeMoveEvent` (lines 191, 198, 205)
  with the counter at or above `numberoftimesToInvoke`.
- **Camera look.** `xRotation` (pitch) and `yRotation` (yaw offset) accumulate
  look deltas and are clamped like `Mathf.Clamp`.
- **Ray-cast scan (`CameraDetection`).** This covers the early drop, the
  interaction prompt, `Interact()` dispatch, the fire-once gaze tracker
  (`lastLookAtObject`) and the pickup gate.
- **Held object.** `isHolding` and `heldObject` change only in `PickUpObject`
  and `DropHeldObject`. The class invariant `Valid()` states
  `isHolding <==> heldObject != null`. Every method that changes those fields
  keeps it.

The Unity engine acts as an oracle. Whatever it supplies is a method parameter:

- the chair's speed and yaw rate;
- the ray-cast result, as a `Hit` record with the object's identity, its
  `Interactable`/`LookAT` components, its tag and its `Rigidbody`;
- the camera's forward axis;
- whether an optional reference is assigned;
- whether an action was pressed this frame.

Whatever the component does to the world is recorded:

- force and torque requests on the chair's body go to `requests`;
- `UnityEvent` invocations, `Interact()` and `LookedAt()` go to `events`, in order;
- the held `Rigidbody` is a `Body` object whose gravity flag, velocities and
  requested impulses the methods update in place.

Modules:

- `Basics`: `Option` and `Abs`.
- `Physics`: vectors, a pose, and the `Body` class.
- `Locomotion`: push selection, the move-event check, and series of pushes.
- `CameraLook`: clamping and look updates.
- `Interaction`: hit classification, the prompt, the gaze tracker and the pickup gate.
- `WheelChair`: the `WheelChairController` class with the component's fields.
- `WheelChairScenario`: a client that picks a box up on one frame and throws it on the next, using only the class's contracts.

The class methods mirror the C# method bodies. Their postconditions tie the new
state to the pure functions of the other modules, and lemmas prove properties
of those functions.

Two behaviours of the code are worth stating plainly:

- The push counter is not kept below the threshold. A speed-capped push, or
  one made with no wheel held, increments it (line 181) but skips the event
  check (lines 183-184, and the fall-through of lines 188-206), so the counter
  grows past the threshold on such pushes. `Locomotion.UncheckedPushesOnlyCount`
  proves this, and `Locomotion.CappedPushesPassThreshold` gives the instance
  with the shipped threshold of 6.
- `OnDisable` (lines 120-143) does not reset the wheel flags, and neither does
  the model.

## Model

| member | source | states |
|---|---|---|
| Basics.Abs | Assets/Assets/Scripts/WheelChair_Test.cs:174 | `Mathf.Abs`: the result is non-negative and is `x` or `-x` |
| Locomotion.WheelRequest | Assets/Assets/Scripts/WheelChair_Test.cs:183-206 | A request is made only when the event check also runs. A forward force comes exactly when both wheels are held and speed <= maxSpeed, and its amount is scroll * wheelForce. A torque comes exactly when one wheel is held and abs(yaw rate) < maxTurnSpeed, and its amount is +scroll * turnForce for the left wheel and -scroll * turnForce for the right |
| Locomotion.ReversedScroll | Assets/Assets/Scripts/WheelChair_Test.cs:190-203 | Negating the scroll value negates the requested force or torque, and never changes whether one is requested |
| Locomotion.MirroredTurn | Assets/Assets/Scripts/WheelChair_Test.cs:193-206 | Right wheel alone requests exactly the opposite torque of left wheel alone, under the same conditions |
| Locomotion.MoveEventCheck | Assets/Assets/Scripts/WheelChair_Test.cs:209-216 | Fires exactly when counter >= threshold and then resets the counter to 0. Otherwise the counter is unchanged. With a positive threshold the counter ends below it |
| Locomotion.Push | Assets/Assets/Scripts/WheelChair_Test.cs:179-207 | The counter goes up by one first. The event fires exactly when some wheel is held, the push is not speed-capped, and counter + 1 reaches the threshold. The counter is 0 after a fire, else old + 1. The request is `WheelRequest`'s |
| Locomotion.Scroll | Assets/Assets/Scripts/WheelChair_Test.cs:170-177 | A scroll with abs(y) < 0.01 changes nothing. Any other scroll is exactly one `Push`: the counter rises by one unless the event fires, and is 0 after a fire |
| Locomotion.Run | Assets/Assets/Scripts/WheelChair_Test.cs:170-216 | Over a series of scroll events, at most one request and one event per scroll |
| Locomotion.IgnoredScrolls | Assets/Assets/Scripts/WheelChair_Test.cs:174 | A series of dead-zone scrolls issues nothing, fires nothing and leaves the counter alone |
| Locomotion.UncheckedPushesOnlyCount | Assets/Assets/Scripts/WheelChair_Test.cs:181-184 | A series of speed-capped or wheel-less pushes issues no force or torque and fires no event. The counter rises by exactly the number of pushes |
| Locomotion.PulseCycle | Assets/Assets/Scripts/WheelChair_Test.cs:181-216 | With 0 <= counter < threshold, a series of pushes that all reach the event check fires once every threshold pushes: counter + pushes == fires * threshold + final counter, and the final counter is below the threshold |
| Locomotion.CappedPushesPassThreshold | Assets/Assets/Scripts/WheelChair_Test.cs:53-54 | With the shipped threshold 6, seven capped pushes from 0 leave the counter at 7 |
| CameraLook.Clamp | Assets/Assets/Scripts/WheelChair_Test.cs:228-230 | `Mathf.Clamp`: the result is the value or a bound. With ordered bounds it lies within them, equals max(lo, min(v, hi)), and is the value itself when the value is already inside |
| CameraLook.Look | Assets/Assets/Scripts/WheelChair_Test.cs:227-230 | With ordered bounds, pitch is in [minVertical, maxVertical] and yaw offset is in [-maxHorizontal, maxHorizontal]. When no clamping occurs, pitch drops by the y delta and yaw rises by the x delta |
| CameraLook.LookFollowsDelta | Assets/Assets/Scripts/WheelChair_Test.cs:227-230 | From inside the bounds, each angle moves in the direction of its delta (pitch opposite the y delta) and by no more than the delta |
| CameraLook.LookRun | Assets/Assets/Scripts/WheelChair_Test.cs:227-230 | Over a series of look updates, a rotation that starts inside ordered bounds stays inside them |
| CameraLook.UnclampedRunAccumulates | Assets/Assets/Scripts/WheelChair_Test.cs:227-230 | If no intermediate sum crosses a bound, a series of deltas lowers pitch by the sum of y deltas and raises yaw by the sum of x deltas |
| Interaction.PromptFor | Assets/Assets/Scripts/WheelChair_Test.cs:268-269 | After a scan the prompt is non-empty exactly on a hit that has an `Interactable`, and it is then "Interact\n   (E)". A miss gives the empty prompt |
| Interaction.GazeTarget | Assets/Assets/Scripts/WheelChair_Test.cs:280-291 | The remembered object after a scan is the hit object when it has `LookAT` and the "Look-at" tag. It is none after any other hit or a miss |
| Interaction.GazeFires | Assets/Assets/Scripts/WheelChair_Test.cs:280-286 | `LookedAt()` fires exactly on a gaze-target hit whose object differs from the remembered one |
| Interaction.GazeRun | Assets/Assets/Scripts/WheelChair_Test.cs:280-291 | Consecutive scans give one notification flag per scan |
| Interaction.GazeFiresAtStreakStarts | Assets/Assets/Scripts/WheelChair_Test.cs:280-291 | Over any series of scans, a scan notifies exactly when it hits a gaze target that the previous scan did not (the first scan compares with the remembered object) |
| Interaction.SteadyGazeFiresOnce | Assets/Assets/Scripts/WheelChair_Test.cs:280-287 | Looking steadily at one gaze target for n scans notifies on the first scan only |
| Interaction.GazeRefiresAfterLookingAway | Assets/Assets/Scripts/WheelChair_Test.cs:280-304 | Hit, look away (a miss or another hit), hit again: the target is notified again |
| WheelChair.WheelChairController.constructor | Assets/Assets/Scripts/WheelChair_Test.cs:33-84 | Initial state: no wheel held, counter 0, rotations 0, empty prompt, nothing held, nothing remembered. The invariant holds |
| WheelChair.WheelChairController.OnLeftPressed | Assets/Assets/Scripts/WheelChair_Test.cs:165 | Sets the left flag. No other field changes (field frame) |
| WheelChair.WheelChairController.OnLeftReleased | Assets/Assets/Scripts/WheelChair_Test.cs:166 | Clears the left flag. No other field changes |
| WheelChair.WheelChairController.OnRightPressed | Assets/Assets/Scripts/WheelChair_Test.cs:167 | Sets the right flag. No other field changes |
| WheelChair.WheelChairController.OnRightReleased | Assets/Assets/Scripts/WheelChair_Test.cs:168 | Clears the right flag. No other field changes |
| WheelChair.WheelChairController.OnScroll | Assets/Assets/Scripts/WheelChair_Test.cs:170-177 | New counter, appended requests and appended events are those of `Scroll` for the current flags. Nothing else changes |
| WheelChair.WheelChairController.ApplyWheelPush | Assets/Assets/Scripts/WheelChair_Test.cs:179-207 | New counter, appended requests and appended events are those of `Push` for the current flags |
| WheelChair.WheelChairController.TryInvokeMoveEvent | Assets/Assets/Scripts/WheelChair_Test.cs:209-216 | At or above the threshold, appends `OnmoveEvent` and zeroes the counter. Below it, changes nothing. With a positive threshold the counter ends below it |
| WheelChair.WheelChairController.HandleCameraLook | Assets/Assets/Scripts/WheelChair_Test.cs:219-234 | Without the look action or the camera, nothing changes. Otherwise the rotations are `Look` of the old ones with deltas input * sensitivity * dt, they lie within ordered bounds, and the camera gets Euler(pitch, body yaw + yaw offset, 0) |
| WheelChair.WheelChairController.CameraDetection | Assets/Assets/Scripts/WheelChair_Test.cs:247-308 | Keeps `Valid()`. No camera: nothing changes. Pickup pressed while holding: the held body gets gravity back and one throwForce impulse along the camera forward, holding ends, itemthrowoff fires, and prompt and gaze memory are untouched. Otherwise the gaze memory becomes `GazeTarget(hit)`, and the prompt (if assigned) becomes `PromptFor(hit)`. Events are Interact, then LookedAt, then itemthrowon, each under its gate. A pickup happens exactly under `PickupAllowed`, and it holds the hit body with gravity off and both velocities zero. Otherwise the bodies are untouched |
| WheelChair.WheelChairController.PickUpObject | Assets/Assets/Scripts/WheelChair_Test.cs:310-320 | Holds the target (invariant holds), turns its gravity off, zeroes both velocities and fires itemthrowon |
| WheelChair.WheelChairController.DropHeldObject | Assets/Assets/Scripts/WheelChair_Test.cs:322-336 | With nothing held, a no-op. Otherwise gravity goes back on, an impulse of throwForce along the camera forward is requested when there is a camera, holding ends and itemthrowoff fires. The invariant is kept |
| WheelChair.WheelChairController.FixedUpdate | Assets/Assets/Scripts/WheelChair_Test.cs:158-162 | Returns a target position exactly while holding with a hold point assigned (the guards of lines 160 and 340), and that target is holdPoint.position + holdPoint.forward * holdDistance (line 342). The method moves nothing itself |

## Left out

- Input-system wiring in `OnEnable`/`OnDisable` (lines 90-143): enabling and disabling actions and subscribing callbacks is engine plumbing. The callbacks are methods the caller invokes. `OnDisable` does not reset the wheel flags, and neither does the model.
- Rigidbody damping and constraints (lines 115-117): engine configuration.
- `FixedUpdate`: models the guard and the target position of `MoveHeldObject` (line 342). The `Vector3.Lerp` step and `MovePosition` (lines 344-346) are floating-point engine math.
- `FollowCameraToChair` (lines 236-244): `Vector3.Lerp` smoothing of the camera position, floating-point engine math. The quaternion built from the Euler angles (line 232) is left to the engine. `HandleCameraLook` returns the angles.
- `Physics.Raycast`, `GetComponent` and `CompareTag`: foreign engine calls. Their results arrive as the `Hit` parameter. `detectionRange` matters only to the ray cast.
- Debug drawing and logging (lines 262, 274-275, 303), the jumpscare audio (lines 151-155), the TMPro text object (the prompt is a field `promptText`), and `SetmouseSensitivity` (lines 71-75): output sinks or configuration. `mouseSensitivity` is a constant of the model.
- `Interactable.Interact()` and `LookAT.LookedAt()`: recorded as `Interacted`/`LookedAt` events. `Interactable.cs` only forwards to a `UnityEvent`, and `LookAT` is not part of this model.
- `Time.deltaTime` and frame scheduling: the frame's delta is a parameter, and the engine loop is not modelled.
- Locomotion.UncheckedPushesOnlyCount: states the counter as an unbounded integer. `soundCounter` is a C# `int` and `soundCounter++` (line 181) is unchecked, so after 2^31-1 increments without a reset it wraps to int.MinValue; the lemma's `counter + |ps|` holds only for series shorter than that, and the same unbounded `counter + 1` is used by `Locomotion.Push`, `Locomotion.Scroll` and `WheelChair.WheelChairController.ApplyWheelPush`.
- Scalars are unbounded reals, so 32-bit float rounding is not modelled. In particular, the dead zone `0.01f` is taken as the exact real 0.01.
- Unity's "destroyed object compares equal to null" is not modelled. References are null or live, so `heldObject != null` and `isHolding` never disagree.
- Forces are recorded as signed amounts along the body's forward axis (`Force`) or about the vertical axis (`Torque`), not as vectors.
